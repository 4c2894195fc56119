/** One service declaration (`service_info`) as the generator reads it.

    A key the code reads with `.get(key)` is an `Option` (`None` for an absent
    key and for an explicit `None`). The four keys whose absence and explicit
    `None` the model tells apart are a `Field`. `advertise`, `mode` and
    `healthcheck_uri` are read with `.get(key, default)`, and the model gives
    them the default for an explicit `None` as well. Keys read only for their
    truthiness are `bool`. Dictionaries the
    code iterates over are sequences of pairs in their iteration order. */
module Service {
  import opened Wrappers

  /** One chaos grouping type's table: grouping value -> chaos entry. */
  type ChaosTable = map<string, map<string, string>>

  datatype ServiceInfo = ServiceInfo(
    proxyPort: Field<int>,                        // proxy_port
    discover: Field<string>,                      // discover
    advertise: Option<seq<string>>,               // advertise
    mode: Option<string>,                         // mode
    healthcheckUri: Option<string>,               // healthcheck_uri
    timeoutClientMs: Field<int>,                  // timeout_client_ms
    timeoutServerMs: Field<int>,                  // timeout_server_ms
    timeoutConnectMs: Option<int>,                // timeout_connect_ms
    retries: Option<int>,                         // retries
    balance: Option<string>,                      // balance
    keepalive: bool,                              // keepalive
    allredisp: bool,                              // allredisp
    extraHeaders: seq<(string, string)>,          // extra_headers
    extraHealthcheckHeaders: seq<(string, string)>, // extra_healthcheck_headers
    proxiedThrough: Option<string>,               // proxied_through
    chaos: seq<(string, ChaosTable)>,             // chaos: grouping type -> table
    isProxy: bool)                                // is_proxy (read by the plugin only)

  /** `service_info.get('proxy_port', -1)` */
  function ProxyPort(info: ServiceInfo): Option<int> {
    info.proxyPort.GetWithDefault(Some(-1))
  }

  /** `service_info.get('discover', 'region')` */
  function Discover(info: ServiceInfo): Option<string> {
    info.discover.GetWithDefault(Some("region"))
  }

  /** `service_info.get('advertise', ['region'])` */
  function Advertise(info: ServiceInfo): seq<string> {
    info.advertise.GetOr(["region"])
  }

  /** `service_info.get('mode', 'http')` */
  function Mode(info: ServiceInfo): string {
    info.mode.GetOr("http")
  }

  /** `service_info.get('healthcheck_uri', '/status')` */
  function HealthcheckUri(info: ServiceInfo): string {
    info.healthcheckUri.GetOr("/status")
  }

  /** Python truthiness of an optional string: present and non-empty. */
  predicate Truthy(s: Option<string>) {
    s.Some? && s.value != ""
  }
}
