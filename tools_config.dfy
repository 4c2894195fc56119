/** The synapse-tools configuration: the raw JSON object that `set_defaults`
    completes (configure_synapse.py:27-87), and the typed reading of it that the
    generator works with. */
module ToolsConfig {
  import opened Wrappers
  import opened Text

  /** A JSON value as `json.load` returns it. An object's entries are kept in
      their iteration order. */
  datatype Value =
    | JNull
    | JBool(b: bool)
    | JInt(i: int)
    | JStr(s: string)
    | JList(items: seq<Value>)
    | JObject(entries: seq<(string, Value)>)

  /** The keys of the configuration object. Each key the tools know by name is a
      constructor (its JSON spelling in the comment); every other key is
      `Other(name)`. A known spelling given as `Other`'s name is read as an
      unknown key. */
  datatype Key =
    | BindAddr                          // bind_addr
    | ListenWithHaproxy                 // listen_with_haproxy
    | HaproxyDefaultsInter              // haproxy.defaults.inter
    | HaproxySocketFilePath             // haproxy_socket_file_path
    | HaproxyCapturedReqHeaders         // haproxy_captured_req_headers
    | HaproxyConfigPath                 // haproxy_config_path
    | HaproxyPath                       // haproxy_path
    | HaproxyPidFilePath                // haproxy_pid_file_path
    | HaproxyStateFilePath              // haproxy_state_file_path
    | HaproxyRespectAllredisp           // haproxy_respect_allredisp
    | HaproxyReloadCmdFmt               // haproxy_reload_cmd_fmt
    | HaproxyServiceSocketsPathFmt      // haproxy_service_sockets_path_fmt
    | HaproxyServiceProxySocketsPathFmt // haproxy_service_proxy_sockets_path_fmt
    | HaproxyRestartIntervalS           // haproxy_restart_interval_s
    | FileOutputPath                    // file_output_path
    | MaximumConnections                // maximum_connections
    | MaxconnPerServer                  // maxconn_per_server
    | MaxqueuePerServer                 // maxqueue_per_server
    | SynapseRestartCommand             // synapse_restart_command
    | ZookeeperTopologyPath             // zookeeper_topology_path
    | HacheckPort                       // hacheck_port
    | StatsPort                         // stats_port
    | ProxyProto                        // proxy_proto
    | ListenWithNginx                   // listen_with_nginx
    | NginxPath                         // nginx_path
    | NginxPrefix                       // nginx_prefix
    | NginxConfigPath                   // nginx_config_path
    | NginxPidFilePath                  // nginx_pid_file_path
    | NginxReloadCmdFmt                 // nginx_reload_cmd_fmt
    | NginxStartCmdFmt                  // nginx_start_cmd_fmt
    | NginxCheckCmdFmt                  // nginx_check_cmd_fmt
    | NginxRestartIntervalS             // nginx_restart_interval_s
    | ReloadCmdFmt                      // reload_cmd_fmt (the old spelling)
    | Errorfiles                        // errorfiles
    | Other(name: string)

  /** The order in which `set_defaults` installs its defaults. */
  const DefaultOrder: seq<Key> := [
    BindAddr,
    ListenWithHaproxy,
    HaproxyDefaultsInter,
    HaproxySocketFilePath,
    HaproxyCapturedReqHeaders,
    HaproxyConfigPath,
    HaproxyPath,
    HaproxyPidFilePath,
    HaproxyStateFilePath,
    HaproxyRespectAllredisp,
    HaproxyReloadCmdFmt,
    HaproxyServiceSocketsPathFmt,
    HaproxyServiceProxySocketsPathFmt,
    HaproxyRestartIntervalS,
    FileOutputPath,
    MaximumConnections,
    MaxconnPerServer,
    MaxqueuePerServer,
    SynapseRestartCommand,
    ZookeeperTopologyPath,
    HacheckPort,
    StatsPort,
    ProxyProto,
    ListenWithNginx,
    NginxPath,
    NginxPrefix,
    NginxConfigPath,
    NginxPidFilePath,
    NginxReloadCmdFmt,
    NginxStartCmdFmt,
    NginxCheckCmdFmt,
    NginxRestartIntervalS
  ]

  /** The keys `set_defaults` installs a default for: all named keys but the old
      `reload_cmd_fmt` and `errorfiles`. */
  predicate HasDefault(k: Key) {
    !(k.ReloadCmdFmt? || k.Errorfiles? || k.Other?)
  }

  /** The kind of value a key holds: what its default is, and what the generator
      expects there. */
  datatype Kind = StrKind | NullableStrKind | BoolKind | IntKind | ListKind | ObjectKind

  function KindOf(k: Key): Kind {
    match k
    case ListenWithHaproxy | HaproxyRespectAllredisp | ProxyProto | ListenWithNginx => BoolKind
    case HaproxyRestartIntervalS | MaximumConnections | MaxconnPerServer | MaxqueuePerServer
       | HacheckPort | StatsPort | NginxRestartIntervalS => IntKind
    case HaproxyStateFilePath => NullableStrKind
    case SynapseRestartCommand => ListKind
    case Errorfiles => ObjectKind
    case _ => StrKind
  }

  predicate HasKind(v: Value, kind: Kind) {
    match kind
    case StrKind => v.JStr?
    case NullableStrKind => v.JStr? || v.JNull?
    case BoolKind => v.JBool?
    case IntKind => v.JInt?
    case ListKind => v.JList?
    case ObjectKind => v.JObject?
  }

  /** Where the service sockets live by default. */
  const SocketDir := "/var/run/synapse/sockets/"

  /** The default of a key of string kind. */
  function DefaultStr(k: Key): string {
    match k
    case BindAddr => "0.0.0.0"
    case HaproxyDefaultsInter => "10m"
    case HaproxySocketFilePath => "/var/run/synapse/haproxy.sock"
    case HaproxyCapturedReqHeaders => "X-B3-SpanId,X-B3-TraceId,X-B3-ParentSpanId,X-B3-Flags:10,X-B3-Sampled:10"
    case HaproxyConfigPath => "/var/run/synapse/haproxy.cfg"
    case HaproxyPath => "/usr/bin/haproxy-synapse"
    case HaproxyPidFilePath => "/var/run/synapse/haproxy.pid"
    case HaproxyReloadCmdFmt => "touch {haproxy_pid_file_path} && PID=$(cat {haproxy_pid_file_path}) && {haproxy_path} -f {haproxy_config_path} -p {haproxy_pid_file_path} -sf $PID"
    case HaproxyServiceSocketsPathFmt => SocketDir + ServiceNameField + ".sock"
    case HaproxyServiceProxySocketsPathFmt => SocketDir + ServiceNameField + ".proxy_sock"
    case FileOutputPath => "/var/run/synapse/services"
    case ZookeeperTopologyPath => "/nail/etc/zookeeper_discovery/infrastructure/local.yaml"
    case NginxPath => "/usr/sbin/nginx"
    case NginxPrefix => "/var/run/synapse/nginx_temp"
    case NginxConfigPath => "/var/run/synapse/nginx.cfg"
    case NginxPidFilePath => "/var/run/synapse/nginx.pid"
    case NginxReloadCmdFmt => "kill -USR2 $(cat {nginx_pid_file_path}) && sleep 2 && kill -WINCH $(cat {nginx_pid_file_path}.oldbin) && kill -QUIT $(cat {nginx_pid_file_path}.oldbin)"
    case NginxStartCmdFmt => "mkdir -p {nginx_prefix} && (kill -0 $(cat {nginx_pid_file_path}) || {nginx_path} -c {nginx_config_path} -p {nginx_prefix})"
    case NginxCheckCmdFmt => "{nginx_path} -t -c {nginx_config_path}"
    case _ => ""
  }

  /** The default of a key of integer kind. */
  function DefaultInt(k: Key): int {
    match k
    case HaproxyRestartIntervalS => 60
    case MaximumConnections => 10000
    case MaxconnPerServer => 50
    case MaxqueuePerServer => 10
    case HacheckPort => 6666
    case StatsPort => 3212
    case NginxRestartIntervalS => 600
    case _ => 0
  }

  /** The default of a key of boolean kind. */
  function DefaultBool(k: Key): bool {
    match k
    case ListenWithHaproxy => true
    case HaproxyRespectAllredisp => true
    case ProxyProto => false
    case ListenWithNginx => false
    case _ => false
  }

  /** The default `set_defaults` installs for a key that has one: always of the
      key's kind. */
  function DefaultValue(k: Key): (v: Value)
    ensures HasKind(v, KindOf(k))
  {
    match KindOf(k)
    case StrKind => JStr(DefaultStr(k))
    case NullableStrKind => JNull
    case BoolKind => JBool(DefaultBool(k))
    case IntKind => JInt(DefaultInt(k))
    case ListKind => JList([JStr("service"), JStr("synapse"), JStr("restart")])
    case ObjectKind => JObject([])
  }

  /** The defaults as a map over the keys `ks`. */
  function DefaultsFor(ks: seq<Key>): (m: map<Key, Value>)
    ensures forall k :: k in m <==> k in ks && HasDefault(k)
  {
    map k | k in ks && HasDefault(k) :: DefaultValue(k)
  }


  /** The keys that have a default. */
  const DefaultKeys: set<Key> := {
    BindAddr,
    ListenWithHaproxy,
    HaproxyDefaultsInter,
    HaproxySocketFilePath,
    HaproxyCapturedReqHeaders,
    HaproxyConfigPath,
    HaproxyPath,
    HaproxyPidFilePath,
    HaproxyStateFilePath,
    HaproxyRespectAllredisp,
    HaproxyReloadCmdFmt,
    HaproxyServiceSocketsPathFmt,
    HaproxyServiceProxySocketsPathFmt,
    HaproxyRestartIntervalS,
    FileOutputPath,
    MaximumConnections,
    MaxconnPerServer,
    MaxqueuePerServer,
    SynapseRestartCommand,
    ZookeeperTopologyPath,
    HacheckPort,
    StatsPort,
    ProxyProto,
    ListenWithNginx,
    NginxPath,
    NginxPrefix,
    NginxConfigPath,
    NginxPidFilePath,
    NginxReloadCmdFmt,
    NginxStartCmdFmt,
    NginxCheckCmdFmt,
    NginxRestartIntervalS
  }

  /** The installation order lists exactly the keys that have a default. */
  lemma DefaultOrderKeys()
    ensures forall k :: k in DefaultOrder <==> k in DefaultKeys
  {
  }

  lemma HasDefaultKeys()
    ensures forall k :: HasDefault(k) <==> k in DefaultKeys
  {
  }

  /** So the defaults map has exactly the keys `DefaultKeys`. */
  lemma DefaultsMapKeys()
    ensures DefaultsFor(DefaultOrder).Keys == DefaultKeys
  {
    DefaultOrderKeys();
    HasDefaultKeys();
  }

  lemma DefaultOrderHasDefaults()
    ensures forall i :: 0 <= i < |DefaultOrder| ==> HasDefault(DefaultOrder[i])
  {
    DefaultOrderKeys();
    HasDefaultKeys();
  }

  /** The backwards-compatibility step: an old `reload_cmd_fmt` key overrides
      `haproxy_reload_cmd_fmt`. */
  function Compat(config: map<Key, Value>): (r: map<Key, Value>)
    ensures r.Keys == if ReloadCmdFmt in config then config.Keys + {HaproxyReloadCmdFmt} else config.Keys
    ensures ReloadCmdFmt in config ==> r[HaproxyReloadCmdFmt] == config[ReloadCmdFmt]
    ensures forall k :: k in config && (k != HaproxyReloadCmdFmt || ReloadCmdFmt !in config) ==> r[k] == config[k]
  {
    if ReloadCmdFmt in config then config[HaproxyReloadCmdFmt := config[ReloadCmdFmt]] else config
  }

  /** What `set_defaults(config)` returns: the defaults, overlaid by every key
      the caller gave (after the compatibility step). */
  function WithDefaults(config: map<Key, Value>): (r: map<Key, Value>)
    ensures forall k :: k in r <==> k in Compat(config) || k in DefaultsFor(DefaultOrder)
    ensures forall k :: k in Compat(config) ==> r[k] == Compat(config)[k]
  {
    DefaultsFor(DefaultOrder) + Compat(config)
  }

  /** The keys of the completed configuration. */
  lemma WithDefaultsKeys(config: map<Key, Value>)
    ensures WithDefaults(config).Keys == Compat(config).Keys + DefaultKeys
  {
    DefaultsMapKeys();
  }

  /** A key the caller did not give holds its default. */
  lemma WithDefaultsValues(config: map<Key, Value>)
    ensures forall k :: k in WithDefaults(config) && k !in Compat(config) ==> WithDefaults(config)[k] == DefaultValue(k)
  {
  }

  /** `set_defaults(config)`: the compatibility step, then one `setdefault` per
      entry of `DefaultOrder`. Python mutates the caller's dictionary and also returns
      it; here the completed map is returned. */
  method SetDefaults(config: map<Key, Value>) returns (r: map<Key, Value>)
    ensures r == WithDefaults(config)
  {
    r := config;
    if ReloadCmdFmt in r {
      r := r[HaproxyReloadCmdFmt := r[ReloadCmdFmt]];
    }
    var defaults := DefaultsFor(DefaultOrder);
    DefaultOrderHasDefaults();
    RestrictDefaultsFor(DefaultOrder);
    r := InstallDefaults(r, DefaultOrder, defaults);
  }

  /** `m` restricted to the keys listed in `ks`. */
  function Restrict(m: map<Key, Value>, ks: seq<Key>): (r: map<Key, Value>)
    ensures forall k :: k in r <==> k in ks && k in m
  {
    map k | k in ks && k in m :: m[k]
  }

  lemma RestrictSnoc(m: map<Key, Value>, ks: seq<Key>, k: Key)
    requires k in m
    ensures Restrict(m, ks + [k]) == Restrict(m, ks)[k := m[k]]
  {
  }

  lemma RestrictDefaultsFor(ks: seq<Key>)
    ensures Restrict(DefaultsFor(ks), ks) == DefaultsFor(ks)
  {
  }

  /** The `for k, v in defaults: config.setdefault(k, v)` loop, with the pairs
      given as the keys `order` and their values in `defaults`. */
  method InstallDefaults(given: map<Key, Value>, order: seq<Key>, defaults: map<Key, Value>)
    returns (r: map<Key, Value>)
    requires forall i :: 0 <= i < |order| ==> order[i] in defaults
    ensures r == Restrict(defaults, order) + given
  {
    r := given;
    for i := 0 to |order|
      invariant r == Restrict(defaults, order[..i]) + given
    {
      var k := order[i];
      var v := defaults[k];
      RestrictSnoc(defaults, order[..i], k);
      assert order[..i + 1] == order[..i] + [k];
      if k !in r {
        r := r[k := v];
      }
    }
    assert order[..|order|] == order;
  }

  /** Applying the defaults twice changes nothing. */
  lemma WithDefaultsIdempotent(config: map<Key, Value>)
    ensures WithDefaults(WithDefaults(config)) == WithDefaults(config)
  {
    var d := DefaultsFor(DefaultOrder);
    assert ReloadCmdFmt !in d;
    CompatAfterDefaults(d, config);
    OverlayTwice(d, Compat(config));
  }

  /** Once the compatibility step has run, running it again over a map without
      the old key changes nothing. */
  lemma CompatAfterDefaults(d: map<Key, Value>, config: map<Key, Value>)
    requires ReloadCmdFmt !in d
    ensures Compat(d + Compat(config)) == d + Compat(config)
  {
  }

  lemma OverlayTwice<K, V>(d: map<K, V>, c: map<K, V>)
    ensures d + (d + c) == d + c
  {
  }

  /** The generator's string, boolean and integer keys. */
  const StrKeys: set<Key> := {
    BindAddr, HaproxyDefaultsInter, HaproxySocketFilePath, HaproxyCapturedReqHeaders,
    HaproxyConfigPath, HaproxyReloadCmdFmt, HaproxyServiceSocketsPathFmt,
    HaproxyServiceProxySocketsPathFmt, FileOutputPath, NginxConfigPath, NginxPidFilePath,
    NginxReloadCmdFmt, NginxStartCmdFmt, NginxCheckCmdFmt
  }
  const BoolKeys: set<Key> := {ListenWithHaproxy, HaproxyRespectAllredisp, ProxyProto, ListenWithNginx}
  const IntKeys: set<Key> := {
    HaproxyRestartIntervalS, MaximumConnections, MaxconnPerServer, MaxqueuePerServer,
    HacheckPort, StatsPort, NginxRestartIntervalS
  }

  /** The keys whose values the generator reads from the configuration. */
  const GeneratorKeys: set<Key> := StrKeys + BoolKeys + IntKeys + {HaproxyStateFilePath}

  /** After `set_defaults`, every key the generator reads is present, whatever the
      caller gave. */
  lemma DefaultsCoverGenerator(config: map<Key, Value>)
    ensures GeneratorKeys <= WithDefaults(config).Keys
  {
    WithDefaultsKeys(config);
    HasDefaultKeys();
    GeneratorKeysHaveDefaults();
    forall k | k in GeneratorKeys ensures k in WithDefaults(config) {
      assert k in DefaultKeys;
    }
  }

  lemma StrKeysKind()
    ensures forall k :: k in StrKeys ==> HasDefault(k) && KindOf(k) == StrKind
  {
    forall k | k in StrKeys ensures HasDefault(k) && KindOf(k) == StrKind {
      assert !k.Other? && !k.ReloadCmdFmt? && !k.Errorfiles?;
    }
  }

  lemma BoolKeysKind()
    ensures forall k :: k in BoolKeys ==> HasDefault(k) && KindOf(k) == BoolKind
  {
  }

  lemma IntKeysKind()
    ensures forall k :: k in IntKeys ==> HasDefault(k) && KindOf(k) == IntKind
  {
  }

  lemma GeneratorKeysHaveDefaults()
    ensures forall k :: k in GeneratorKeys ==> HasDefault(k)
  {
    StrKeysKind();
    BoolKeysKind();
    IntKeysKind();
  }

  // ---------------------------------------------------------------------------
  // The typed reading of the configuration
  // ---------------------------------------------------------------------------

  /** The configuration values the generator reads, with their Python types. */
  datatype Settings = Settings(
    bindAddr: string,
    listenWithHaproxy: bool,
    haproxyInter: string,
    haproxySocketFilePath: string,
    capturedReqHeaders: string,
    haproxyConfigPath: string,
    haproxyStateFilePath: Option<string>,   // JSON `null` is `None`
    respectAllredisp: bool,
    haproxyReloadCmdFmt: string,
    socketsPathFmt: string,
    proxySocketsPathFmt: string,
    haproxyRestartIntervalS: int,
    fileOutputPath: string,
    maximumConnections: int,
    maxconnPerServer: int,
    maxqueuePerServer: int,
    hacheckPort: int,
    statsPort: int,
    proxyProto: bool,
    listenWithNginx: bool,
    nginxConfigPath: string,
    nginxPidFilePath: string,
    nginxReloadCmdFmt: string,
    nginxStartCmdFmt: string,
    nginxCheckCmdFmt: string,
    nginxRestartIntervalS: int,
    errorfiles: seq<(string, string)>)     // `config.get('errorfiles', {})`, in iteration order

  /** An object of strings, in iteration order. */
  function StringPairs(entries: seq<(string, Value)>): (r: Option<seq<(string, string)>>)
    ensures r.Some? <==> forall i :: 0 <= i < |entries| ==> entries[i].1.JStr?
    ensures r.Some? ==> |r.value| == |entries|
    ensures r.Some? ==> forall i :: 0 <= i < |entries| ==> r.value[i] == (entries[i].0, entries[i].1.s)
    decreases |entries|
  {
    if entries == [] then Some([])
    else if !entries[0].1.JStr? then None
    else
      var rest :- StringPairs(entries[1..]);
      Some([(entries[0].0, entries[0].1.s)] + rest)
  }

  /** `errorfiles`, when present, is an object of strings. */
  predicate ErrorfilesReadable(c: map<Key, Value>) {
    Errorfiles in c ==> c[Errorfiles].JObject? && StringPairs(c[Errorfiles].entries).Some?
  }

  /** Every key the generator reads is present with the kind it expects. */
  predicate Readable(c: map<Key, Value>) {
    && (forall k :: k in StrKeys ==> k in c && c[k].JStr?)
    && (forall k :: k in BoolKeys ==> k in c && c[k].JBool?)
    && (forall k :: k in IntKeys ==> k in c && c[k].JInt?)
    && HaproxyStateFilePath in c && (c[HaproxyStateFilePath].JStr? || c[HaproxyStateFilePath].JNull?)
    && ErrorfilesReadable(c)
  }

  /** The typed reading of a configuration: `None` when a key the generator reads
      is missing (Python would raise `KeyError`) or holds a value of another kind
      than the one its setting has. The second case also refuses values Python
      would accept by truthiness or by `format`, such as `listen_with_nginx: 1`. */
  function View(c: map<Key, Value>): (r: Option<Settings>)
    ensures r.Some? <==> Readable(c)
  {
    if !Readable(c) then None
    else
      var stateFile := if c[HaproxyStateFilePath].JStr? then Some(c[HaproxyStateFilePath].s) else None;
      var errorfiles := if Errorfiles in c then StringPairs(c[Errorfiles].entries).value else [];
      Some(Settings(
        c[BindAddr].s, c[ListenWithHaproxy].b, c[HaproxyDefaultsInter].s, c[HaproxySocketFilePath].s,
        c[HaproxyCapturedReqHeaders].s, c[HaproxyConfigPath].s, stateFile, c[HaproxyRespectAllredisp].b,
        c[HaproxyReloadCmdFmt].s, c[HaproxyServiceSocketsPathFmt].s, c[HaproxyServiceProxySocketsPathFmt].s,
        c[HaproxyRestartIntervalS].i, c[FileOutputPath].s, c[MaximumConnections].i, c[MaxconnPerServer].i,
        c[MaxqueuePerServer].i, c[HacheckPort].i, c[StatsPort].i, c[ProxyProto].b, c[ListenWithNginx].b,
        c[NginxConfigPath].s, c[NginxPidFilePath].s, c[NginxReloadCmdFmt].s, c[NginxStartCmdFmt].s,
        c[NginxCheckCmdFmt].s, c[NginxRestartIntervalS].i, errorfiles))
  }

  /** Every value the caller gave for a key with a default has the kind the
      generator expects, the old `reload_cmd_fmt` is a string, and `errorfiles`,
      when given, is an object of strings. */
  predicate WellTyped(c: map<Key, Value>) {
    && (forall k :: k in c && HasDefault(k) ==> HasKind(c[k], KindOf(k)))
    && (ReloadCmdFmt in c ==> c[ReloadCmdFmt].JStr?)
    && ErrorfilesReadable(c)
  }

  /** A key with a default is in the defaults map, holding its default. */
  lemma KeyDefaulted(k: Key)
    requires HasDefault(k)
    ensures k in DefaultsFor(DefaultOrder) && DefaultsFor(DefaultOrder)[k] == DefaultValue(k)
  {
    HasDefaultKeys();
    DefaultOrderKeys();
  }

  /** Completing a well-typed configuration leaves a defaulted key present at
      the kind the generator expects. */
  lemma CompletedKind(c: map<Key, Value>, k: Key)
    requires WellTyped(c) && HasDefault(k)
    ensures k in WithDefaults(c) && HasKind(WithDefaults(c)[k], KindOf(k))
  {
    KeyDefaulted(k);
    var w := WithDefaults(c);
    if k in Compat(c) {
      GivenKind(c, k);
      assert w[k] == Compat(c)[k];
    } else {
      assert w[k] == DefaultValue(k);
    }
  }

  /** A key the caller gave keeps its kind through the compatibility step. */
  lemma GivenKind(c: map<Key, Value>, k: Key)
    requires WellTyped(c) && HasDefault(k) && k in Compat(c)
    ensures HasKind(Compat(c)[k], KindOf(k))
  {
    if k == HaproxyReloadCmdFmt && ReloadCmdFmt in c {
      assert Compat(c)[k] == c[ReloadCmdFmt] && KindOf(k) == StrKind;
    } else {
      assert k in c && Compat(c)[k] == c[k];
    }
  }

  /** Completing a well-typed configuration keeps every defaulted key at the
      kind the generator expects. */
  lemma CompletedKinds(c: map<Key, Value>)
    requires WellTyped(c)
    ensures forall k :: HasDefault(k) && k in WithDefaults(c) ==> HasKind(WithDefaults(c)[k], KindOf(k))
  {
    forall k | HasDefault(k) && k in WithDefaults(c) ensures HasKind(WithDefaults(c)[k], KindOf(k)) {
      CompletedKind(c, k);
    }
  }

  /** `errorfiles` has no default, so it is read as the caller gave it. */
  lemma ErrorfilesKept(c: map<Key, Value>)
    requires ErrorfilesReadable(c)
    ensures ErrorfilesReadable(WithDefaults(c))
  {
    assert Errorfiles !in DefaultsFor(DefaultOrder);
  }

  /** Completing a well-typed configuration with `set_defaults` always yields a
      configuration the generator can read. */
  lemma DefaultsMakeReadable(c: map<Key, Value>)
    requires WellTyped(c)
    ensures Readable(WithDefaults(c))
  {
    StrKeysCompleted(c);
    BoolKeysCompleted(c);
    IntKeysCompleted(c);
    StateFileCompleted(c);
    ErrorfilesKept(c);
  }

  lemma StateFileCompleted(c: map<Key, Value>)
    requires WellTyped(c)
    ensures HaproxyStateFilePath in WithDefaults(c)
    ensures WithDefaults(c)[HaproxyStateFilePath].JStr? || WithDefaults(c)[HaproxyStateFilePath].JNull?
  {
    var k := HaproxyStateFilePath;
    assert HasDefault(k) && KindOf(k) == NullableStrKind;
    CompletedKind(c, k);
  }

  lemma StrKeysCompleted(c: map<Key, Value>)
    requires WellTyped(c)
    ensures forall k :: k in StrKeys ==> k in WithDefaults(c) && WithDefaults(c)[k].JStr?
  {
    StrKeysKind();
    forall k | k in StrKeys ensures k in WithDefaults(c) && WithDefaults(c)[k].JStr? {
      CompletedKind(c, k);
    }
  }

  lemma BoolKeysCompleted(c: map<Key, Value>)
    requires WellTyped(c)
    ensures forall k :: k in BoolKeys ==> k in WithDefaults(c) && WithDefaults(c)[k].JBool?
  {
    BoolKeysKind();
    forall k | k in BoolKeys ensures k in WithDefaults(c) && WithDefaults(c)[k].JBool? {
      CompletedKind(c, k);
    }
  }

  lemma IntKeysCompleted(c: map<Key, Value>)
    requires WellTyped(c)
    ensures forall k :: k in IntKeys ==> k in WithDefaults(c) && WithDefaults(c)[k].JInt?
  {
    IntKeysKind();
    forall k | k in IntKeys ensures k in WithDefaults(c) && WithDefaults(c)[k].JInt? {
      CompletedKind(c, k);
    }
  }

  // ---------------------------------------------------------------------------
  // `get_zookeeper_topology` (configure_synapse.py:90-95), its formatting step
  // ---------------------------------------------------------------------------

  /** `['%s:%d' % (host, port) for host, port in topology]` */
  function ZookeeperHosts(topology: seq<(string, int)>): (r: seq<string>)
    ensures |r| == |topology|
    decreases |topology|
  {
    if topology == [] then []
    else [topology[0].0 + ":" + IntToString(topology[0].1)] + ZookeeperHosts(topology[1..])
  }

  /** Each `host:port` entry splits back into its host and port when the host
      holds no colon. */
  lemma {:induction false} ZookeeperHostsRoundTrip(topology: seq<(string, int)>, i: nat)
    requires i < |topology| && ':' !in topology[i].0
    ensures var p := Partition(ZookeeperHosts(topology)[i], ':');
      p.0 == topology[i].0 && p.1 == ":" && p.2 == IntToString(topology[i].1)
    decreases i
  {
    if i == 0 {
      var h, port := topology[0].0, IntToString(topology[0].1);
      PartitionAt(h, port, ':');
    } else {
      ZookeeperHostsRoundTrip(topology[1..], i - 1);
    }
  }
}
