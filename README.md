# synapse-tools configuration generator, modelled in Dafny

synapse-tools writes the configuration of Synapse, SmartStack's service-discovery daemon. Synapse watches ZooKeeper for each service's instances and renders HAProxy (and optionally NGINX) configuration from what it finds. This project models how synapse-tools builds that document, and proves properties of the model:

- `set_defaults` completes the tools configuration with its defaults. It has a backwards-compatibility step for the old `reload_cmd_fmt` key.
- `generate_base_config` builds the base document. `_generate_haproxy_top_level` and `_generate_nginx_top_level` supply its HAProxy and NGINX top levels: the `global` and `defaults` lines, the state-file lines, the error files and the stats listener.
- `generate_configuration` makes the services object from these parts:
  - one ZooKeeper watcher per advertise type of each service, filtered to the host's location at that type;
  - the frontend, socket binds and routing ACLs on the watcher of the discover type;
  - an NGINX listener when NGINX listens;
  - the empty document `{}` when a considered service's discover type is not among its advertise types.
- `base_watcher_cfg_for_service` and `_generate_haproxy_for_watcher` build the per-service HAProxy section: server options, frontend and backend lines, captured request headers, timeouts, health check and extra headers.
- `_generate_nginx_for_watcher` builds the static NGINX watcher.
- `chaos_options` and `merge_dict_for_my_grouping` choose chaos injection by the host's own groupings.
- `get_backend_name`, `_get_socket_path` and `generate_acls_for_service` name backends and sockets, and route requests.
- The `ProxiedThrough` HAProxy plugin handles services proxied through another service.

Modules, one concept each:

| module | file | models |
|---|---|---|
| `Wrappers` | wrappers.dfy | `Option`; `Field`, which tells an absent dictionary key from an explicit `None` |
| `Text` | text.dfy | Python string operations the code uses: `'%d'`, `split`, `partition`, `strip`, `lstrip`, `format(service_name=…)` |
| `Location` | location.dfy | location types, their depth, `compare_types`, and ordering the advertise types most specific first |
| `ToolsConfig` | tools_config.dfy | the tools configuration as a JSON-like map; `set_defaults`; the typed reading `Settings` |
| `Service` | service.dfy | a service's `service_info` and the defaults its `.get` calls use |
| `Document` | document.dfy | the generated Synapse document: watchers, HAProxy and NGINX sections, directive lines and their text |
| `Directives` | directives.dfy | `_generate_haproxy_for_watcher` and `_generate_captured_request_headers` |
| `Chaos` | chaos.dfy | `merge_dict_for_my_grouping`, `chaos_options` |
| `Routing` | routing.dfy | `get_backend_name`, `generate_acls_for_service` |
| `TopLevel` | top_level.dfy | `_generate_haproxy_top_level`, `_generate_nginx_top_level`, `generate_base_config` |
| `Generator` | generator.dfy | `_get_socket_path`, `base_watcher_cfg_for_service`, `_generate_nginx_for_watcher`, `generate_configuration` |
| `GeneratorFacts` | generator_facts.dfy | properties of the generated services object |
| `ProxiedThrough` | proxied_through.dfy | the `ProxiedThrough` plugin |

The code mutates lists and dictionaries in loops. Those loops are methods with invariants:

- `SetDefaults` and `InstallDefaults`;
- `MergeForGrouping`;
- `GenerateAcls`;
- `GenerateHaproxyForWatcher`, with the appends it is built from;
- `GenerateConfiguration`, with `AddService` and `AddEntries`.

Each method is proved equal to a specification function, and the properties are proved about that function.

Names for the environment the code reads:

- `Inputs.env.locations`: the list `available_location_types()` returns, most general type first.
- `Inputs.env.current`: `get_current_location`.
- `Inputs.env.grouping`: `get_my_grouping`.
- `Inputs.topology`: the ZooKeeper host list.
- `Inputs.reapAge`: `DEFAULT_REAP_AGE_S`.
- `Inputs.expand`: `fmt.format(**synapse_tools_config)` on the shell command templates.

Python dictionaries whose iteration order the output shows are sequences of pairs, in iteration order: `extra_headers`, `extra_healthcheck_headers`, `chaos` and `errorfiles`.

Facts about the code that the model keeps:

- The NGINX listener's key is `<service>.nginx_listener` (src/synapse_tools/configure_synapse.py:487).
- `compare_types(discover, advertise) < 0` drops the routes to advertise types more specific than the discover type (src/synapse_tools/configure_synapse.py:342-344). The test at src/tests/configure_synapse_test.py:201-202 expects exactly that.
- The health check and `http-check send-state` go into `backend`, and `listen` stays empty (src/synapse_tools/configure_synapse.py:639-641, 673).
- The generator writes the proxied-through block only for a truthy `proxied_through` (src/synapse_tools/configure_synapse.py:322). The plugin writes it whenever the value is not `None`. So the two differ on an empty string, as `ProxiedThrough.EmptyProxyDiffers` shows.

## Model

| member | source | states |
|---|---|---|
| Location.Depth | src/synapse_tools/configure_synapse.py:369-372 | the depth of a known type is an index of it in the location list, and the last one (a repeated name keeps its last index, as the dict comprehension does) |
| Location.DepthInjective | src/synapse_tools/configure_synapse.py:369-372 | two types at the same depth are the same type |
| Location.CompareTypes | src/synapse_tools/configure_synapse.py:342 | `compare_types` is negative exactly when the first type is more general, zero exactly for equal types, and within -1..1 |
| Location.Available | src/synapse_tools/configure_synapse.py:392-397 | the filtered advertise list holds exactly the known declared types, each as often as declared |
| Location.Insert | src/synapse_tools/configure_synapse.py:391-400 | inserting a type into a deepest-first list keeps it deepest-first and adds exactly that type |
| Location.SortByDepth | src/synapse_tools/configure_synapse.py:391-400 | `sorted(..., key=depth, reverse=True)` is a permutation of its input, most specific first |
| Location.AdvertiseOrder | src/synapse_tools/configure_synapse.py:391-400 | the advertise types used are exactly the declared known ones, most specific first |
| Location.FirstIsDeepest | src/synapse_tools/configure_synapse.py:391-400 | the head of a deepest-first list is at least as deep as any of its elements |
| Location.DeepestFirstUnique | src/synapse_tools/configure_synapse.py:391-400 | two deepest-first arrangements of the same known types are equal |
| Location.AdvertiseOrderIgnoresInputOrder | src/synapse_tools/configure_synapse.py:391-400 | reordering the declared advertise types does not change the order the generator uses |
| Text.NatToString | src/synapse_tools/configure_synapse.py:156 | `'%d'` of a natural number is a non-empty string of digits without a leading zero |
| Text.ParseNatToString | src/synapse_tools/configure_synapse.py:156 | reading back the digits `'%d'` writes gives the number |
| Text.IntToString | src/synapse_tools/configure_synapse.py:156 | `'%d'` / `str` of an integer is non-empty and starts with `-` exactly for a negative number |
| Text.IntToStringRoundTrip | src/synapse_tools/configure_synapse.py:156 | the printed integer is a sign and digits, and parses back to the integer |
| Text.IntToStringInjective | src/synapse_tools/configure_synapse.py:156 | different integers never print the same |
| Text.LStrip | src/synapse_tools/configure_synapse.py:636 | `lstrip('/')` removes exactly the leading run of slashes |
| Text.TrimLeft | src/synapse_tools/configure_synapse.py:534 | `lstrip()` removes exactly the leading whitespace |
| Text.TrimRight | src/synapse_tools/configure_synapse.py:638 | `rstrip()` removes exactly the trailing whitespace |
| Text.TrimRightAppend | src/synapse_tools/configure_synapse.py:638 | `rstrip` never reaches past a visible last character of a prefix |
| Text.StripKeepsPrefix | src/synapse_tools/configure_synapse.py:638 | `strip` of text that opens with a visible prefix keeps the prefix and trims only the right |
| Text.Split | src/synapse_tools/configure_synapse.py:535 | `split(sep)` gives at least one piece, the pieces hold no separator, and joining them gives the input back |
| Text.SplitJoin | src/synapse_tools/configure_synapse.py:535 | splitting what `join` wrote from separator-free pieces gives the pieces back |
| Text.Partition | src/synapse_tools/configure_synapse.py:534 | `partition(c)` splits at the first `c`; the three parts concatenate to the input, and without a `c` the last two are empty |
| Text.PartitionAt | src/synapse_tools/configure_synapse.py:534 | `(h + c + t).partition(c)` is `(h, c, t)` when `h` has no `c` |
| Text.PartitionAbsent | src/synapse_tools/configure_synapse.py:534 | text without the separator partitions to itself and two empty strings |
| Text.StripPlain | src/synapse_tools/configure_synapse.py:534 | text without whitespace is its own `strip()` |
| Text.FormatPlain | src/synapse_tools/configure_synapse.py:307-309 | `format(service_name=...)` copies brace-free text unchanged |
| Text.FormatTemplate | src/synapse_tools/configure_synapse.py:307-309 | a template with one `{service_name}` between brace-free text formats to that text around the name |
| ToolsConfig.DefaultValue | src/synapse_tools/configure_synapse.py:32-82 | every default has the kind of value the generator expects for its key |
| ToolsConfig.DefaultsFor | src/synapse_tools/configure_synapse.py:32-82 | the defaults map has a value for exactly the listed keys that have a default |
| ToolsConfig.DefaultOrderKeys | src/synapse_tools/configure_synapse.py:32-82 | the defaults list names exactly the keys with a default |
| ToolsConfig.DefaultsMapKeys | src/synapse_tools/configure_synapse.py:32-82 | the defaults cover exactly the defaulted keys |
| ToolsConfig.Compat | src/synapse_tools/configure_synapse.py:28-30 | an old `reload_cmd_fmt` is copied to `haproxy_reload_cmd_fmt`, and every other key keeps its value |
| ToolsConfig.WithDefaults | src/synapse_tools/configure_synapse.py:27-87 | the completed configuration has the caller's keys plus the defaulted keys, and a given key keeps the caller's value |
| ToolsConfig.WithDefaultsKeys | src/synapse_tools/configure_synapse.py:27-87 | its keys are the caller's keys (after the compatibility step) plus the defaulted keys |
| ToolsConfig.WithDefaultsValues | src/synapse_tools/configure_synapse.py:84-85 | a key the caller did not give holds its default |
| ToolsConfig.SetDefaults | src/synapse_tools/configure_synapse.py:27-87 | `set_defaults`, with its `setdefault` loop, returns the completed configuration |
| ToolsConfig.InstallDefaults | src/synapse_tools/configure_synapse.py:84-85 | the `setdefault` loop leaves given keys alone and adds the listed defaults |
| ToolsConfig.RestrictDefaultsFor | src/synapse_tools/configure_synapse.py:84-85 | installing the defaults in list order installs all of them |
| ToolsConfig.WithDefaultsIdempotent | src/synapse_tools/configure_synapse.py:27-87 | applying `set_defaults` twice changes nothing |
| ToolsConfig.DefaultsCoverGenerator | src/synapse_tools/configure_synapse.py:27-87 | after `set_defaults`, every key the generator reads is present |
| ToolsConfig.GeneratorKeysHaveDefaults | src/synapse_tools/configure_synapse.py:32-82 | every key the generator reads has a default |
| ToolsConfig.StringPairs | src/synapse_tools/configure_synapse.py:285-288 | an object whose values are all strings reads as its pairs, in order; any other value makes it unreadable |
| ToolsConfig.View | src/synapse_tools/configure_synapse.py:259-291 | the typed settings exist exactly when every key the generator reads is present with its expected kind |
| ToolsConfig.CompletedKinds | src/synapse_tools/configure_synapse.py:27-87 | completing a well-typed configuration keeps every defaulted key at its expected kind |
| ToolsConfig.ErrorfilesKept | src/synapse_tools/configure_synapse.py:285-288 | `errorfiles` has no default and keeps the caller's readable value |
| ToolsConfig.DefaultsMakeReadable | src/synapse_tools/configure_synapse.py:27-87 | completing a well-typed configuration always gives one the generator can read |
| ToolsConfig.StateFileCompleted | src/synapse_tools/configure_synapse.py:42 | after completion `haproxy_state_file_path` is present, as a string or `None` |
| ToolsConfig.StrKeysCompleted | src/synapse_tools/configure_synapse.py:32-82 | after completion every string key the generator reads holds a string |
| ToolsConfig.BoolKeysCompleted | src/synapse_tools/configure_synapse.py:32-82 | after completion every boolean key holds a boolean |
| ToolsConfig.IntKeysCompleted | src/synapse_tools/configure_synapse.py:32-82 | after completion every integer key holds an integer |
| ToolsConfig.ZookeeperHosts | src/synapse_tools/configure_synapse.py:93-94 | one `host:port` entry per topology entry |
| ToolsConfig.ZookeeperHostsRoundTrip | src/synapse_tools/configure_synapse.py:93-94 | each `host:port` entry partitions back into its host and printed port when the host has no colon |
| Service.ProxyPort | src/synapse_tools/configure_synapse.py:381 | `proxy_port` with `-1` when absent; an explicit `null` stays `None` (the definition; GeneratorFacts.SkippedLeavesNoTrace and GeneratorFacts.PortlessWatchers state what each case produces) |
| Service.Discover | src/synapse_tools/configure_synapse.py:390 | `discover` with `region` when absent; an explicit `null` stays `None` (the definition; GeneratorFacts.ServicesGiveUpIff states its effect) |
| Service.Advertise | src/synapse_tools/configure_synapse.py:394 | `advertise` with `[region]` when absent (the definition; Generator.AdvertiseTypes states the types used) |
| Service.Mode | src/synapse_tools/configure_synapse.py:555 | `mode` with `http` when absent (the definition; the Directives lemmas state what each mode emits) |
| Service.HealthcheckUri | src/synapse_tools/configure_synapse.py:634 | `healthcheck_uri` with `/status` when absent (the definition; Document.HttpCheckText and Directives.BackendProxyStamp state its uses) |
| Document.HttpCheckText | src/synapse_tools/configure_synapse.py:635-638 | the stripped health-check line keeps its fixed prefix and loses only trailing whitespace |
| Document.HttpCheckWithoutHeaders | src/synapse_tools/configure_synapse.py:626-638 | without extra health-check headers the line is the prefix and the URI without leading slashes, with no trailing space |
| Document.HttpCheckWithHeaders | src/synapse_tools/configure_synapse.py:626-638 | with extra health-check headers the line ends in ` HTTP/1.1` and one `\r\nK:\ V` field per header, in order |
| Document.HeaderFieldsEnd | src/synapse_tools/configure_synapse.py:630 | the header text ends with the last header's value |
| Directives.ServerOptionsFor | src/synapse_tools/configure_synapse.py:553-564 | the server options of a watcher (the definition; Directives.ServerOptionsText states the rendered text) |
| Directives.Frontend | src/synapse_tools/configure_synapse.py:569-581 | the frontend lines: client timeout, log lines, `mode tcp` (the definition; Directives.FrontendTimeout, FrontendHttpLog, FrontendTcp, FrontendCaptures and FrontendOrdered state its contents and order) |
| Directives.Backend | src/synapse_tools/configure_synapse.py:585-662 | the backend lines (the definition; Directives.BackendParts and the Backend lemmas state its contents, Directives.BackendOrdered its order) |
| Directives.MaxOrNone | src/synapse_tools/configure_synapse.py:548-551 | Python 2 `max` over two optional timeouts is one of them, `None` only when both are, and no smaller than either |
| Directives.TimeoutResolution | src/synapse_tools/configure_synapse.py:546-551 | a given timeout is used as is; one given timeout sets the other absent side; neither gives none; an explicit `None` gives none |
| Directives.CapturedHeaders | src/synapse_tools/configure_synapse.py:532-539 | one capture line per comma-separated item, in order |
| Directives.CapturedHeadersRoundTrip | src/synapse_tools/configure_synapse.py:532-539 | a written list of `Name[:len]` items reads back as one capture line per header, with its length or 64 |
| Directives.CaptureItemRead | src/synapse_tools/configure_synapse.py:534-538 | one `Name[:len]` item reads as its name and its length or 64 |
| Directives.Reqidels | src/synapse_tools/configure_synapse.py:616-617 | one `reqidel` per extra header, in order |
| Directives.Reqadds | src/synapse_tools/configure_synapse.py:618-619 | one `reqadd` per extra header with its value, in order |
| Directives.HaproxyFor | src/synapse_tools/configure_synapse.py:664-674 | the section has a frontend, an empty `listen`, no port, bind address or backend name, and layer-7 checks exactly in HTTP mode |
| Directives.ServerOptionsText | src/synapse_tools/configure_synapse.py:553-564 | each server line gets `check port <hacheck_port> observe <layer> maxconn <maxconn_per_server> maxqueue <maxqueue_per_server>` from the settings, with `layer7` exactly for HTTP services and `layer4` for every other mode |
| Directives.AppendHeaderDeletions | src/synapse_tools/configure_synapse.py:615-617 | the `reqidel` loop appends the deletions to the backend |
| Directives.AppendHeaderAdditions | src/synapse_tools/configure_synapse.py:618-619 | the `reqadd` loop appends the additions to the backend |
| Directives.BuildFrontend | src/synapse_tools/configure_synapse.py:569-581 | the successive frontend appends give the frontend specification |
| Directives.BuildBackendHead | src/synapse_tools/configure_synapse.py:585-613 | the successive backend appends up to the extra headers give the backend head |
| Directives.AppendBackendTail | src/synapse_tools/configure_synapse.py:621-662 | the appends from the health check on give the backend tail |
| Directives.GenerateHaproxyForWatcher | src/synapse_tools/configure_synapse.py:542-674 | `_generate_haproxy_for_watcher` builds exactly the HAProxy section specification |
| Directives.ModesDistinct | src/synapse_tools/configure_synapse.py:555 | a service is never in both HTTP and TCP mode |
| Directives.FrontendTimeout | src/synapse_tools/configure_synapse.py:570-574 | the frontend has `timeout client ms` exactly when the client timeout resolves to `ms` |
| Directives.FrontendHttpLog | src/synapse_tools/configure_synapse.py:576-578 | `option httplog` exactly for HTTP services |
| Directives.FrontendTcp | src/synapse_tools/configure_synapse.py:579-600 | `option tcplog`, the refusal of invalid requests and `mode tcp` exactly for TCP services |
| Directives.FrontendCaptures | src/synapse_tools/configure_synapse.py:576-577 | exactly HTTP services capture, and exactly the configured headers |
| Directives.BackendParts | src/synapse_tools/configure_synapse.py:585-662 | the backend is the head, the deletions, the additions and the tail, each holding only its own kinds of line |
| Directives.BackendBalance | src/synapse_tools/configure_synapse.py:587-589 | `balance alg` exactly when the service asks for `leastconn` or `roundrobin` |
| Directives.BackendKeepalive | src/synapse_tools/configure_synapse.py:591-596 | the keep-alive lines exactly for HTTP services that ask for them |
| Directives.BackendTcp | src/synapse_tools/configure_synapse.py:598-601 | `mode tcp` in the backend exactly for TCP services |
| Directives.BackendProxyStamp | src/synapse_tools/configure_synapse.py:603-613 | a proxy stamps exactly its own name as the source and tests exactly its health-check URI; other services do neither |
| Directives.BackendExtraHeaders | src/synapse_tools/configure_synapse.py:615-619 | each extra header is deleted and added with its value, and no other header is |
| Directives.ReqidelsBeforeReqadds | src/synapse_tools/configure_synapse.py:615-619 | every header deletion comes before every header addition |
| Directives.HealthCheckThenSendState | src/synapse_tools/configure_synapse.py:621-641 | a health check exists, and every one sits at the same position (so there is exactly one), checks this service's mode, name, URI and headers, and is directly followed by `http-check send-state` |
| Directives.BackendRetries | src/synapse_tools/configure_synapse.py:643-645 | `retries n` exactly when the service sets `n` |
| Directives.BackendAllredisp | src/synapse_tools/configure_synapse.py:647-651 | `option allredisp` exactly when the configuration respects it and the service asks for it |
| Directives.BackendConnectTimeout | src/synapse_tools/configure_synapse.py:653-656 | `timeout connect ms` exactly when the service sets it |
| Directives.BackendTimeout | src/synapse_tools/configure_synapse.py:658-662 | `timeout server ms` exactly when the server timeout resolves to `ms` |
| Directives.OneTimeoutSetsBoth | src/synapse_tools/configure_synapse.py:546-551 | a service setting one timeout gets that value on both sides |
| Directives.NoTimeoutNoLines | src/synapse_tools/configure_synapse.py:546-551 | a service setting neither timeout gets no timeout line |
| Directives.FrontendOrdered | src/synapse_tools/configure_synapse.py:569-600 | the frontend lines come in the code's order: timeout, captures or TCP lines, log option, `mode tcp` |
| Directives.BackendOrdered | src/synapse_tools/configure_synapse.py:585-662 | the backend lines come in the code's order, from `balance` to `timeout server` |
| Chaos.Merged | src/synapse_tools/configure_synapse.py:759-782 | the `dict.update` fold over the grouping types (the definition; Chaos.MergedKeys, Chaos.MergedValue and Chaos.LastFailWins state its keys and values) |
| Chaos.ChaosOptions | src/synapse_tools/configure_synapse.py:733-756 | the chaos lines and the discovery they leave (the definition; Chaos.ChaosLines, Chaos.DiscoveryReplacedOnFailure and Chaos.FailIgnoresDelay state the outcomes) |
| Chaos.MergedKeys | src/synapse_tools/configure_synapse.py:777-782 | a key is merged exactly when the host's entry at some grouping type has it |
| Chaos.MergedValue | src/synapse_tools/configure_synapse.py:777-782 | a merged key's value is the one of the last grouping type whose entry has it |
| Chaos.MergeForGrouping | src/synapse_tools/configure_synapse.py:759-782 | the `update` loop gives the merged entries |
| Chaos.ChaosFor | src/synapse_tools/configure_synapse.py:733-756 | the discovery is kept or replaced by the base method, and at most two frontend lines come back |
| Chaos.FailIgnoresDelay | src/synapse_tools/configure_synapse.py:741-754 | with `fail` set to `drop` or `error_503` the `delay` key changes nothing |
| Chaos.DiscoveryReplacedOnFailure | src/synapse_tools/configure_synapse.py:744-748 | only `error_503` replaces the discovery, with the base method and no frontend lines |
| Chaos.ChaosLines | src/synapse_tools/configure_synapse.py:741-756 | the reject line exactly for `drop`; the delay lines exactly without a failure mode and with a non-empty delay |
| Chaos.LastFailWins | src/synapse_tools/configure_synapse.py:777-782 | the last grouping type that chooses a `fail` decides it |
| Routing.BackendName | src/synapse_tools/configure_synapse.py:294-298 | `get_backend_name` (the definition; Routing.BackendNameInjective and Routing.BackendNameOwn state its properties) |
| Routing.ProxyAcls | src/synapse_tools/configure_synapse.py:321-339 | the proxied-through block (the definition; Routing.ProxyBlockFirst states its place and contents) |
| Routing.Acls | src/synapse_tools/configure_synapse.py:313-363 | the routing lines the loop produces (the definition; Routing.GenerateAcls is proved equal to it; Routing.ProxyBlockFirst, RoutesAt and OwnRouteFirst state its contents) |
| Routing.BackendNameInjective | src/synapse_tools/configure_synapse.py:294-298 | different advertise types of one service get different backend names |
| Routing.BackendNameOwn | src/synapse_tools/configure_synapse.py:294-298 | the backend name is the service's own name exactly for the discover type |
| Routing.KeptMembers | src/synapse_tools/configure_synapse.py:341-344 | an advertise type gets a route exactly when it is no more specific than the discover type |
| Routing.KeptNone | src/synapse_tools/configure_synapse.py:341-344 | no route when every advertise type is more specific than the discover type |
| Routing.RouteAt | src/synapse_tools/configure_synapse.py:352-362 | the `i`-th kept type's connection-slot test and switch sit at positions `2i` and `2i + 1` |
| Routing.RoutesAt | src/synapse_tools/configure_synapse.py:352-362 | every kept type's pair names its backend, in order |
| Routing.GenerateAcls | src/synapse_tools/configure_synapse.py:313-363 | the loop gives the proxy block followed by one pair per kept advertise type |
| Routing.KeptNext | src/synapse_tools/configure_synapse.py:342-362 | one more advertise type adds itself to the kept types, unless it downcasts, in which case it adds no route |
| Routing.ProxyBlockFirst | src/synapse_tools/configure_synapse.py:321-339 | a truthy `proxied_through` puts the proxy switch and destination header before every service route; otherwise there is no proxy switch |
| Routing.RouteKinds | src/synapse_tools/configure_synapse.py:352-362 | every route line is a connection-slot test or a switch |
| Routing.OwnBackendFirst | src/synapse_tools/configure_synapse.py:341-362 | with the most specific types first, the discover type is the first kept type |
| Routing.OwnRouteFirst | src/synapse_tools/configure_synapse.py:313-363 | the service's own backend gets the first route after the proxy block |
| TopLevel.HaproxyTopLevel | src/synapse_tools/configure_synapse.py:138-256 | the HAProxy top level (the definition; TopLevel.StateFileLines, DefaultServerCarriesInter and HaproxyTopFromSettings state its contents) |
| TopLevel.NginxTopLevel | src/synapse_tools/configure_synapse.py:98-135 | the NGINX top level (the definition; TopLevel.NginxSharesBudget states its contents) |
| TopLevel.BaseConfig | src/synapse_tools/configure_synapse.py:259-291 | the base document (the definition; TopLevel.BaseConfigShape and TopLevel.BaseConfigErrorfiles state its contents) |
| TopLevel.StateFileLines | src/synapse_tools/configure_synapse.py:248-254 | the `server-state-file` and load lines close `global` and `defaults` exactly for a truthy state-file path |
| TopLevel.DefaultServerCarriesInter | src/synapse_tools/configure_synapse.py:228-230 | the `default-server` line carries the configured check interval |
| TopLevel.HaproxyTopFromSettings | src/synapse_tools/configure_synapse.py:138-243 | every path, interval and command of the HAProxy top level comes from the settings; the state file and its 1800 s TTL are fixed |
| TopLevel.NginxSharesBudget | src/synapse_tools/configure_synapse.py:98-135 | NGINX takes `maximum_connections` per worker and four times as many file descriptors, as HAProxy's `maxconn`, on the same address |
| TopLevel.ErrorfileLinesAt | src/synapse_tools/configure_synapse.py:285-288 | one `errorfile code path` line per configured error file, in order |
| TopLevel.BaseConfigErrorfiles | src/synapse_tools/configure_synapse.py:285-289 | the error files close `defaults` after the HAProxy top level's lines, which are unchanged |
| TopLevel.BaseConfigShape | src/synapse_tools/configure_synapse.py:259-269 | the base document has no service, the file output directory, and an NGINX top level exactly when NGINX listens |
| Generator.SocketPath | src/synapse_tools/configure_synapse.py:301-310 | `_get_socket_path` (the definition; Generator.DefaultSocketPaths and Generator.DefaultSocketsDistinct state the default paths) |
| Generator.BaseWatcher | src/synapse_tools/configure_synapse.py:497-529 | `base_watcher_cfg_for_service` (the definition; GeneratorFacts.BaseWatcherShape and GeneratorFacts.NoChaosNoChange state its fields) |
| Generator.NginxWatcher | src/synapse_tools/configure_synapse.py:677-730 | `_generate_nginx_for_watcher` (the definition; GeneratorFacts.NginxWatcherShape and GeneratorFacts.NginxReachesHaproxy state its fields) |
| Generator.Entry | src/synapse_tools/configure_synapse.py:420-466 | the watcher for one advertise type (the definition; GeneratorFacts.EntryDiscovery, EntryWithoutPort, EntryPrimary and EntrySecondary state its cases) |
| Generator.Configuration | src/synapse_tools/configure_synapse.py:366-494 | `generate_configuration` (the definition; Generator.GenerateConfiguration is proved equal to it; GeneratorFacts.ConfigurationResult states its outcome) |
| Generator.DefaultSocketPaths | src/synapse_tools/configure_synapse.py:301-310 | with the default templates the sockets are `/var/run/synapse/sockets/<name>.sock` and `.proxy_sock`, and they differ |
| Generator.DefaultSocketsDistinct | src/synapse_tools/configure_synapse.py:301-310 | with the default templates different services never share a socket |
| Generator.AdvertiseTypes | src/synapse_tools/configure_synapse.py:391-400 | the advertise types are known location types, most specific first |
| Generator.Proxies | src/synapse_tools/configure_synapse.py:374-378 | a name is a proxy exactly when some service is proxied through it |
| Generator.FoldGivesUp | src/synapse_tools/configure_synapse.py:401-402 | once a service gives up, the whole result stays given up |
| Generator.FoldNoneIff | src/synapse_tools/configure_synapse.py:380-402 | the loop gives up exactly when some element makes its step give up |
| Generator.FoldIdle | src/synapse_tools/configure_synapse.py:384-385 | a step that changes nothing, as `continue` does, leaves no trace |
| Generator.GenerateConfiguration | src/synapse_tools/configure_synapse.py:366-494 | the loop over the services gives the specified document or `{}` |
| Generator.AddService | src/synapse_tools/configure_synapse.py:381-492 | one service's loop body: skip, give up, or add its watchers |
| Generator.AddEntries | src/synapse_tools/configure_synapse.py:420-466 | the loop over the advertise types writes each type's watcher under its backend name |
| GeneratorFacts.BaseWatcherShape | src/synapse_tools/configure_synapse.py:497-529 | the dynamic watcher: no static servers, no old backends; ZooKeeper discovery unless chaos fails with 503; the generated backend and frontend with at most two chaos lines; NGINX off when NGINX listens |
| GeneratorFacts.NoChaosNoChange | src/synapse_tools/configure_synapse.py:508-511 | without chaos the watcher carries the generated section and the ZooKeeper discovery |
| GeneratorFacts.NginxWatcherShape | src/synapse_tools/configure_synapse.py:677-730 | the NGINX listener is static, TCP, on the service's port, forwarding to the HAProxy socket; it proxies past the reap age plus ten seconds, sends PROXY exactly when configured, and uses `reuseport` exactly when HAProxy listens too |
| GeneratorFacts.EntryDiscovery | src/synapse_tools/configure_synapse.py:424-432 | every watcher of a service keeps the base discovery, filtered to the host's location at its advertise type |
| GeneratorFacts.EntryWithoutPort | src/synapse_tools/configure_synapse.py:434-437 | without a port HAProxy is off, and NGINX is off when NGINX listens |
| GeneratorFacts.EntryPrimary | src/synapse_tools/configure_synapse.py:439-458 | the discover type's watcher gets the port and both binds, or only the socket as bind address and the PROXY bind |
| GeneratorFacts.EntrySecondary | src/synapse_tools/configure_synapse.py:459-464 | the other advertise types' watchers lose the frontend and are named `<service>.<type>` |
| GeneratorFacts.EntriesKeys | src/synapse_tools/configure_synapse.py:420-466 | the advertise loop adds exactly the backend names of the advertise types |
| GeneratorFacts.EntriesAt | src/synapse_tools/configure_synapse.py:420-466 | each backend name holds its own type's watcher |
| GeneratorFacts.EntriesElsewhere | src/synapse_tools/configure_synapse.py:466 | other keys keep their watchers |
| GeneratorFacts.StepOutcome | src/synapse_tools/configure_synapse.py:380-492 | a service aborts exactly when its discover type is missing from its advertise types; a skipped service changes nothing; otherwise its watchers are placed |
| GeneratorFacts.ListenerNameFresh | src/synapse_tools/configure_synapse.py:487 | the listener's key is never the service's own key |
| GeneratorFacts.PrimaryWatcher | src/synapse_tools/configure_synapse.py:439-481 | with a port the service's own watcher is named after it, with the base frontend, the binds and the routing lines, in order |
| GeneratorFacts.SecondaryWatcher | src/synapse_tools/configure_synapse.py:459-466 | with a port the other types' watchers have no frontend and name their backend `<service>.<type>` |
| GeneratorFacts.PortlessWatchers | src/synapse_tools/configure_synapse.py:434-437 | without a port every watcher has HAProxy off, and no routing or listener is added |
| GeneratorFacts.WatcherLabels | src/synapse_tools/configure_synapse.py:424-432 | each watcher watches the base discovery, filtered to the host's location at its type |
| GeneratorFacts.NginxReachesHaproxy | src/synapse_tools/configure_synapse.py:483-492 | the NGINX listener forwards to a socket the service's HAProxy frontend binds or listens on |
| GeneratorFacts.PlacedKeys | src/synapse_tools/configure_synapse.py:420-492 | a service adds exactly its backend names, plus its listener when it has a port and NGINX listens |
| GeneratorFacts.PlacedKeepsOthers | src/synapse_tools/configure_synapse.py:466-492 | watchers already written under other keys stay as they were |
| GeneratorFacts.ServicesGiveUpIff | src/synapse_tools/configure_synapse.py:380-402 | the services loop gives up exactly when some considered service's discover type is not among its advertise types |
| GeneratorFacts.ConfigurationResult | src/synapse_tools/configure_synapse.py:366-494 | `generate_configuration` returns `{}` exactly when some considered service aborts; otherwise the base document with the services object |
| GeneratorFacts.SkippedLeavesNoTrace | src/synapse_tools/configure_synapse.py:381-385 | a service with a negative or defaulted port leaves no trace |
| ProxiedThrough.FrontendOptions | src/synapse_tools/config_plugins/proxied_through.py:8-31 | the plugin's frontend lines (the definition; ProxiedThrough.PluginFrontendRoutesToProxy, PluginFrontendMatchesGenerator and EmptyProxyDiffers state its contents) |
| ProxiedThrough.BackendOptions | src/synapse_tools/config_plugins/proxied_through.py:33-48 | the plugin's backend lines (the definition; ProxiedThrough.PluginBackendMatchesGenerator states its contents) |
| ProxiedThrough.PluginFrontendRoutesToProxy | src/synapse_tools/config_plugins/proxied_through.py:5-31 | the plugin switches to a backend exactly when the service is proxied through one, and only to the proxy; its global section is empty |
| ProxiedThrough.PluginFrontendMatchesGenerator | src/synapse_tools/config_plugins/proxied_through.py:8-31 | for a non-empty `proxied_through` the plugin writes the generator's proxy block with the switch and the destination header swapped |
| ProxiedThrough.EmptyProxyDiffers | src/synapse_tools/config_plugins/proxied_through.py:9-10 | for an empty `proxied_through` the generator writes nothing and the plugin writes all five lines |
| ProxiedThrough.PluginBackendMatchesGenerator | src/synapse_tools/config_plugins/proxied_through.py:33-48 | the plugin's backend lines are the generator's proxy lines, present exactly for a proxy |

## Left out

- `main`, `get_config` and `get_zookeeper_topology`:
  - the file reads, JSON and YAML parsing, the temporary file, comparing and copying files, and restarting Synapse are I/O;
  - the model starts from the parsed configuration map and the topology pairs.
- `get_my_grouping`, `get_current_location`, `available_location_types` and `DEFAULT_REAP_AGE_S` read the host or another package. They are the parameters `env.grouping`, `env.current`, `env.locations` and `reapAge`.
- `fmt.format(**synapse_tools_config)` on the shell command templates is the uninterpreted parameter `expand`.
- Socket templates format only `{service_name}`. Any other brace field in a custom template is copied as text, where Python would raise `KeyError`.
- `server_order_seed` (`hash(socket.gethostname())`) and the `restart_jitter` float 0.1 of both top levels are left out: one is host-dependent and the other a floating-point constant.
- `compare_types` on a type missing from the location list would raise. The model requires known types there, and the generator only passes types it has filtered against that list.
- Chaos values that are not strings have no place in the model: its chaos entries map strings to strings.
- A configuration with a key the generator reads missing is not modelled as a `KeyError`: `ToolsConfig.View` returns `None` for it.
- View (`ToolsConfig.View`): it also returns `None` for values Python accepts, because the typed settings hold a `bool`, `int` or `string` per key. Examples are a non-boolean flag such as `listen_with_nginx: 1`, which Python reads by truthiness (src/synapse_tools/configure_synapse.py:268, 436, 486, 691, 707-708); a non-string value that `format` prints, such as a number for `bind_addr` (141); and `haproxy_state_file_path: false` (248). How Python prints such a value (`str(1)`, `True`, a list's repr) is not modelled.
- StringPairs (`ToolsConfig.StringPairs`): an `errorfiles` value that is not a string makes the whole configuration `None`, although `"errorfile {} {}".format` prints it (src/synapse_tools/configure_synapse.py:285-288). That is the same gap as for `View`.
- Service.Mode, Service.HealthcheckUri and Service.Advertise treat an explicit `None` like an absent key and give the default. The code's `.get(key, default)` returns `None` there instead. `mode: None` would give `observe layer4`, no log lines and `GET /None/...`. `healthcheck_uri: None` raises at `.lstrip` (636). `advertise: None` raises a `TypeError` (394). The code relies on service configurations being validated before they reach it (src/synapse_tools/configure_synapse.py:543-544), and the model assumes the same.
- ToolsConfig.Key: nothing stops `Other(name)` from carrying a known spelling such as `"bind_addr"`. A map holding both `Other("bind_addr")` and `BindAddr` has no counterpart in a JSON object. The model reads such a map through `BindAddr` only.
- Text.IsSpace is the whitespace set of Python 2 `str.strip()`. Strings loaded from JSON are `unicode`, whose `strip()` also removes other Unicode whitespace such as U+00A0. Those characters are kept by the model's `Strip`.
- Update in place and aliasing: the code mutates the document and deep-copies the base watcher per advertise type. The model works on values, so sharing between copies is not represented.
- `ProxiedThrough.GlobalOptions` has no contract: it is the empty list, stated by `ProxiedThrough.PluginFrontendRoutesToProxy`.
- `Chaos.ChaosFor`: its own contract only bounds the result. `Chaos.ChaosLines`, `Chaos.DiscoveryReplacedOnFailure` and `Chaos.FailIgnoresDelay` state the individual outcomes.
- The other HAProxy plugins (logging, path-based routing, Spectre timings) and the plugin base classes are not part of this model.
