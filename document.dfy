/** The synapse configuration document that the generator writes: service
    watchers, their HAProxy and nginx sections, and the HAProxy directive lines
    inside them.

    Every HAProxy line the generator can emit is a `Directive`; `Render` gives
    the exact text the Python code formats for it, so properties about which
    lines appear and in what order are stated over directives. */
module Document {
  import opened Wrappers
  import opened Text

  // ---------------------------------------------------------------------------
  // HAProxy directive lines
  // ---------------------------------------------------------------------------

  datatype Directive =
    // frontend (configure_synapse.py:569-581, 598-601)
    | TimeoutClient(ms: int)
    | CaptureRequestHeader(header: string, len: string)
    | OptionHttplog
    | NoOptionAcceptInvalidHttpRequest
    | OptionTcplog
    | ModeTcp
    // binds of the primary watcher (configure_synapse.py:443-458)
    | Bind(path: string)
    | BindAcceptProxy(path: string)
    // chaos (configure_synapse.py:741-754)
    | TcpRequestContentReject
    | TcpRequestInspectDelay(delay: string)
    | TcpRequestContentAcceptIfWaitEnd
    // routing ACLs (configure_synapse.py:321-362, proxied_through.py:15-31)
    | AclIsStatusRequest(uri: string)
    | AclRequestFromProxy(proxy: string)
    | AclProxiedThroughHasConnslots(proxy: string)
    | UseBackendIfProxied(proxy: string)
    | ReqaddDestination(service: string)
    | AclHasConnslots(backend: string)
    | UseBackendIfHasConnslots(backend: string)
    // backend (configure_synapse.py:585-662)
    | Balance(algorithm: string)
    | NoOptionForceclose
    | OptionHttpKeepAlive
    | ReqaddSource(service: string)
    | Reqidel(header: string)
    | Reqadd(header: string, value: string)
    | HttpCheck(mode: string, service: string, uri: string, headers: seq<(string, string)>)
    | HttpCheckSendState
    | Retries(n: int)
    | OptionAllredisp
    | TimeoutConnect(ms: int)
    | TimeoutServer(ms: int)

  /** The suffix of the health-check line: `HTTP/1.1` and one `\r\nK:\ V` per
      extra header (written as raw backslashes), or nothing without extra headers
      (configure_synapse.py:628-632). */
  function HealthcheckHeaders(headers: seq<(string, string)>): string {
    if |headers| > 0 then "HTTP/1.1" + HeaderFields(headers) else ""
  }

  function HeaderFields(headers: seq<(string, string)>): string
    decreases |headers|
  {
    if headers == [] then ""
    else "\\r\\n" + headers[0].0 + ":\\ " + headers[0].1 + HeaderFields(headers[1..])
  }

  /** The text before the health-check URI. */
  function HttpCheckPrefix(mode: string, service: string): string {
    "option httpchk GET /" + mode + "/" + service + "/0/"
  }

  /** `('option httpchk GET /%s/%s/%d/%s %s' % …).strip()` with the dummy port 0
      (configure_synapse.py:625-638). */
  function HttpCheckLine(mode: string, service: string, uri: string, headers: seq<(string, string)>): string {
    Strip(HttpCheckPrefix(mode, service) + LStrip(uri, '/') + " " + HealthcheckHeaders(headers))
  }

  /** The text of one directive, as the Python code formats it. */
  function Render(d: Directive): string {
    match d
    case TimeoutClient(ms) => "timeout client " + IntToString(ms) + "ms"
    case CaptureRequestHeader(h, len) => "capture request header " + h + " len " + len
    case OptionHttplog => "option httplog"
    case NoOptionAcceptInvalidHttpRequest => "no option accept-invalid-http-request"
    case OptionTcplog => "option tcplog"
    case ModeTcp => "mode tcp"
    case Bind(p) => "bind " + p
    case BindAcceptProxy(p) => "bind " + p + " accept-proxy"
    case TcpRequestContentReject => "tcp-request content reject"
    case TcpRequestInspectDelay(delay) => "tcp-request inspect-delay " + delay
    case TcpRequestContentAcceptIfWaitEnd => "tcp-request content accept if WAIT_END"
    case AclIsStatusRequest(uri) => "acl is_status_request path " + uri
    case AclRequestFromProxy(p) => "acl request_from_proxy hdr_beg(X-Smartstack-Source) -i " + p
    case AclProxiedThroughHasConnslots(p) => "acl proxied_through_backend_has_connslots connslots(" + p + ") gt 0"
    case UseBackendIfProxied(p) =>
      "use_backend " + p + " if !is_status_request !request_from_proxy proxied_through_backend_has_connslots"
    case ReqaddDestination(n) =>
      "reqadd X-Smartstack-Destination:\\ " + n + " if !is_status_request !request_from_proxy proxied_through_backend_has_connslots"
    case AclHasConnslots(b) => "acl " + b + "_has_connslots connslots(" + b + ") gt 0"
    case UseBackendIfHasConnslots(b) => "use_backend " + b + " if " + b + "_has_connslots"
    case Balance(alg) => "balance " + alg
    case NoOptionForceclose => "no option forceclose"
    case OptionHttpKeepAlive => "option http-keep-alive"
    case ReqaddSource(n) => "reqadd X-Smartstack-Source:\\ " + n + " if !is_status_request"
    case Reqidel(h) => "reqidel ^" + h + ":.*"
    case Reqadd(h, v) => "reqadd " + h + ":\\ " + v
    case HttpCheck(mode, service, uri, headers) => HttpCheckLine(mode, service, uri, headers)
    case HttpCheckSendState => "http-check send-state"
    case Retries(n) => "retries " + IntToString(n)
    case OptionAllredisp => "option allredisp"
    case TimeoutConnect(ms) => "timeout connect " + IntToString(ms) + "ms"
    case TimeoutServer(ms) => "timeout server " + IntToString(ms) + "ms"
  }

  /** The health-check line keeps its fixed prefix and loses only trailing
      whitespace: without extra health-check headers it ends with the URI after
      its leading slashes are gone, and with them the `HTTP/1.1` suffix follows
      one space after the URI. */
  lemma HttpCheckText(mode: string, service: string, uri: string, headers: seq<(string, string)>)
    ensures HttpCheckLine(mode, service, uri, headers)
         == HttpCheckPrefix(mode, service) + TrimRight(LStrip(uri, '/') + " " + HealthcheckHeaders(headers))
  {
    var p, u, h := HttpCheckPrefix(mode, service), LStrip(uri, '/'), HealthcheckHeaders(headers);
    assert HttpCheckLine(mode, service, uri, headers) == Strip(p + u + " " + h);
    Regroup(p, u, h);
    HttpCheckPrefixEnds(mode, service);
    StripKeepsPrefix(p, u + " " + h);
  }

  lemma Regroup(p: string, u: string, h: string)
    ensures p + u + " " + h == p + (u + " " + h)
  {
  }

  lemma HttpCheckPrefixEnds(mode: string, service: string)
    ensures var p := HttpCheckPrefix(mode, service); |p| > 0 && !IsSpace(p[0]) && !IsSpace(p[|p| - 1])
  {
    var p := HttpCheckPrefix(mode, service);
    var head := "option httpchk GET /";
    assert p == head + (mode + "/" + service + "/0/");
    assert p[0] == head[0];
    assert p[|p| - 1] == '/';
  }

  /** Without extra health-check headers, and for a URI without trailing
      whitespace, the line is exactly the prefix and the URI with its leading
      slashes removed. */
  lemma HttpCheckWithoutHeaders(mode: string, service: string, uri: string)
    requires LStrip(uri, '/') == [] || !IsSpace(LStrip(uri, '/')[|LStrip(uri, '/')| - 1])
    ensures HttpCheckLine(mode, service, uri, []) == HttpCheckPrefix(mode, service) + LStrip(uri, '/')
  {
    HttpCheckText(mode, service, uri, []);
    var u := LStrip(uri, '/');
    assert u + " " + HealthcheckHeaders([]) == u + " ";
    TrimRightSpace(u);
  }

  /** With extra health-check headers whose last value ends in a visible
      character, nothing is trimmed. */
  lemma HttpCheckWithHeaders(mode: string, service: string, uri: string, headers: seq<(string, string)>)
    requires |headers| > 0
    requires var v := headers[|headers| - 1].1; |v| > 0 && !IsSpace(v[|v| - 1])
    ensures HttpCheckLine(mode, service, uri, headers)
         == HttpCheckPrefix(mode, service) + LStrip(uri, '/') + " HTTP/1.1" + HeaderFields(headers)
  {
    var p, u, f := HttpCheckPrefix(mode, service), LStrip(uri, '/'), HeaderFields(headers);
    assert HealthcheckHeaders(headers) == "HTTP/1.1" + f;
    HttpCheckText(mode, service, uri, headers);
    HeaderFieldsEnd(headers);
    VisibleEnd(u + " HTTP/1.1", f, headers[|headers| - 1].1);
    HeadersSuffix(p, u, f);
    TrimRightVisible(u + " HTTP/1.1" + f);
  }

  /** A text that ends with a value ending in a visible character ends in that
      character too. */
  lemma VisibleEnd(a: string, f: string, v: string)
    requires |f| >= |v| > 0 && f[|f| - |v|..] == v && !IsSpace(v[|v| - 1])
    ensures |a + f| > 0 && !IsSpace((a + f)[|a + f| - 1])
  {
    assert (a + f)[|a + f| - 1] == f[|f| - 1] == f[|f| - |v|..][|v| - 1];
  }

  /** The health-check text with extra headers, regrouped. */
  lemma HeadersSuffix(p: string, u: string, f: string)
    ensures u + " " + ("HTTP/1.1" + f) == u + " HTTP/1.1" + f
    ensures p + (u + " HTTP/1.1" + f) == p + u + " HTTP/1.1" + f
  {
    assert " " + "HTTP/1.1" == " HTTP/1.1";
    assert u + " " + ("HTTP/1.1" + f) == u + (" " + "HTTP/1.1") + f;
  }

  /** The extra-header text ends with the last header's value. */
  lemma {:induction false} HeaderFieldsEnd(headers: seq<(string, string)>)
    requires |headers| > 0
    ensures var f, v := HeaderFields(headers), headers[|headers| - 1].1;
      |f| >= |v| && f[|f| - |v|..] == v
    decreases |headers|
  {
    var h := headers[0];
    var rest := HeaderFields(headers[1..]);
    var f := HeaderFields(headers);
    assert f == ("\\r\\n" + h.0 + ":\\ " + h.1) + rest;
    if |headers| > 1 {
      HeaderFieldsEnd(headers[1..]);
      assert headers[1..][|headers[1..]| - 1] == headers[|headers| - 1];
      assert f[|f| - |rest|..] == rest;
    } else {
      assert rest == "";
    }
  }

  lemma TrimRightSpace(u: string)
    requires u == [] || !IsSpace(u[|u| - 1])
    ensures TrimRight(u + " ") == u
  {
    var s := u + " ";
    assert s[..|s| - 1] == u;
  }

  // ---------------------------------------------------------------------------
  // Service watchers
  // ---------------------------------------------------------------------------

  /** One entry of a discovery `label_filters` list (`labelName` is its `label`). */
  datatype LabelFilter = LabelFilter(labelName: string, value: string, condition: string)

  datatype DiscoveryMethod =
    | Zookeeper(path: string, hosts: seq<string>)   // {'method': 'zookeeper', 'path': …, 'hosts': …}
    | BaseMethod                                     // {'method': 'base'}

  /** A watcher's `discovery` object (`source` is its `method`, with the keys
      that go with it); `labelFilters` is `None` while the key is
      absent. */
  datatype Discovery = Discovery(source: DiscoveryMethod, labelFilters: Option<seq<LabelFilter>>)

  /** The `server_options` string (configure_synapse.py:553-564): layer 7
      observation for HTTP services, layer 4 otherwise. */
  datatype ServerOptions = ServerOptions(layer7: bool, checkPort: int, maxconn: int, maxqueue: int)

  function RenderServerOptions(o: ServerOptions): string {
    "check port " + IntToString(o.checkPort) + " observe " + (if o.layer7 then "layer7" else "layer4")
      + " maxconn " + IntToString(o.maxconn) + " maxqueue " + IntToString(o.maxqueue)
  }

  /** A watcher's `haproxy` object: `{'disabled': True}`, or the generated
      section. `frontend` is `None` once the key is deleted; `port` tells an
      absent key from an explicit `None`. */
  datatype HaproxySection =
    | HaproxyDisabled
    | HaproxyWatcher(
        serverOptions: ServerOptions,
        frontend: Option<seq<Directive>>,
        backend: seq<Directive>,
        listen: seq<Directive>,
        port: Field<string>,
        bindAddress: Option<string>,
        backendName: Option<string>)

  /** A watcher's `nginx` object: `{'disabled': True}`, or the listener of
      `_generate_nginx_for_watcher` (configure_synapse.py:697-712). */
  datatype NginxSection =
    | NginxDisabled
    | NginxListener(mode: string, port: int, server: seq<string>, listenOptions: Option<string>)

  /** One `default_servers` entry. */
  datatype DefaultServer = DefaultServer(host: string, port: string)

  /** One entry of the document's `services` object. `nginx` is `None` while
      the key is absent; `fileOutputDisabled` is the `file_output:
      {'disabled': True}` of the nginx listener. */
  datatype Watcher = Watcher(
    defaultServers: seq<DefaultServer>,
    usePreviousBackends: bool,
    discovery: Discovery,
    haproxy: HaproxySection,
    nginx: Option<NginxSection>,
    fileOutputDisabled: bool)

  // ---------------------------------------------------------------------------
  // The top level
  // ---------------------------------------------------------------------------

  /** The `haproxy` top-level object (configure_synapse.py:140-243), without the
      host-dependent `server_order_seed` and the `restart_jitter` float. */
  datatype HaproxyTop = HaproxyTop(
    bindAddress: string,
    restartInterval: int,
    stateFilePath: string,
    stateFileTtl: int,
    reloadCommand: string,
    socketFilePath: string,
    configFilePath: string,
    doWrites: bool,
    doReloads: bool,
    doSocket: bool,
    global: seq<string>,
    defaults: seq<string>,
    extraSections: seq<(string, seq<string>)>)

  /** The `nginx` top-level object (configure_synapse.py:99-135), without the
      `restart_jitter` float. */
  datatype NginxTop = NginxTop(
    mainContext: seq<string>,
    streamContext: seq<string>,
    eventsContext: seq<string>,
    configFilePath: string,
    checkCommand: string,
    reloadCommand: string,
    startCommand: string,
    doWrites: bool,
    doReloads: bool,
    restartInterval: int,
    listenAddress: string)

  /** The whole document. */
  datatype SynapseConfig = SynapseConfig(
    services: map<string, Watcher>,
    fileOutputDirectory: string,
    haproxy: HaproxyTop,
    nginx: Option<NginxTop>)
}
