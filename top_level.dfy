/** The document's top level: `_generate_nginx_top_level`
    (configure_synapse.py:98-135), `_generate_haproxy_top_level`
    (configure_synapse.py:138-256) and `generate_base_config`
    (configure_synapse.py:259-291).

    The three command strings are templates expanded with every key of the
    configuration (`fmt.format(**synapse_tools_config)`); that expansion is the
    parameter `expand`. */
module TopLevel {
  import opened Wrappers
  import opened Text
  import opened ToolsConfig
  import opened Service
  import opened Document

  const StateFile := "/var/run/synapse/state.json"
  const StateFileTtl := 30 * 60
  const LoadStateLine := "load-server-state-from-file global"

  /** `global` before the optional state-file line. */
  function GlobalBase(s: Settings): seq<string> {
    ["daemon",
     "maxconn " + IntToString(s.maximumConnections),
     "stats socket " + s.haproxySocketFilePath + " level admin",
     "tune.bufsize 32768",
     "spread-checks 50",
     "log 127.0.0.1:1514 daemon info",
     "log-send-hostname",
     "unix-bind mode 666"]
  }

  /** The `default-server` line: checks every `inter`, every 30 seconds while a
      server is down or failing user traffic. */
  function DefaultServerLine(inter: string): string {
    "default-server on-error fastinter error-limit 1 inter " + inter + " downinter 30s fastinter 30s rise 1 fall 2"
  }

  /** `defaults` before the optional state-file line and the error files. */
  function DefaultsBase(s: Settings): seq<string> {
    ["timeout connect 200ms",
     "timeout client 1000ms",
     "timeout server 1000ms",
     "retries 1",
     "option redispatch 1",
     "balance leastconn",
     "mode http",
     "option forceclose",
     "option accept-invalid-http-request",
     "log global",
     "option log-separate-errors",
     DefaultServerLine(s.haproxyInter)]
  }

  /** The two lines a truthy `haproxy_state_file_path` adds. */
  function StateFileLine(s: Settings): seq<string> {
    if Truthy(s.haproxyStateFilePath) then ["server-state-file " + s.haproxyStateFilePath.value] else []
  }

  function LoadStateLines(s: Settings): seq<string> {
    if Truthy(s.haproxyStateFilePath) then [LoadStateLine] else []
  }

  function StatsSection(s: Settings): seq<string> {
    ["bind :" + IntToString(s.statsPort), "mode http", "stats enable", "stats uri /", "stats refresh 1m",
     "stats show-node"]
  }

  /** `_generate_haproxy_top_level` */
  function HaproxyTopLevel(s: Settings, expand: string -> string): HaproxyTop {
    HaproxyTop(
      s.bindAddr, s.haproxyRestartIntervalS, StateFile, StateFileTtl, expand(s.haproxyReloadCmdFmt),
      s.haproxySocketFilePath, s.haproxyConfigPath, true, true, true,
      GlobalBase(s) + StateFileLine(s),
      DefaultsBase(s) + LoadStateLines(s),
      [("listen stats", StatsSection(s))])
  }

  /** The state-file lines are there exactly when the path is set and
      non-empty: `server-state-file` closing `global`, and the instruction to
      load it closing `defaults`. */
  lemma StateFileLines(s: Settings, expand: string -> string)
    ensures var t := HaproxyTopLevel(s, expand);
      && (Truthy(s.haproxyStateFilePath) <==> |t.global| == |GlobalBase(s)| + 1)
      && (Truthy(s.haproxyStateFilePath) <==> |t.defaults| == |DefaultsBase(s)| + 1)
      && (Truthy(s.haproxyStateFilePath) ==>
            t.global[|t.global| - 1] == "server-state-file " + s.haproxyStateFilePath.value
            && t.defaults[|t.defaults| - 1] == LoadStateLine)
  {
  }

  /** Every server gets the configured check interval. */
  lemma DefaultServerCarriesInter(s: Settings, expand: string -> string)
    ensures DefaultServerLine(s.haproxyInter) in HaproxyTopLevel(s, expand).defaults
  {
    assert HaproxyTopLevel(s, expand).defaults[11] == DefaultServerLine(s.haproxyInter);
  }

  /** The HAProxy section reads every path and interval from the settings and
      reloads with the expanded reload template. */
  lemma HaproxyTopFromSettings(s: Settings, expand: string -> string)
    ensures var t := HaproxyTopLevel(s, expand);
      && t.bindAddress == s.bindAddr && t.restartInterval == s.haproxyRestartIntervalS
      && t.socketFilePath == s.haproxySocketFilePath && t.configFilePath == s.haproxyConfigPath
      && t.reloadCommand == expand(s.haproxyReloadCmdFmt)
      && t.stateFilePath == StateFile && t.stateFileTtl == 1800
      && "stats socket " + s.haproxySocketFilePath + " level admin" in t.global
      && t.extraSections == [("listen stats", StatsSection(s))]
      && StatsSection(s)[0] == "bind :" + IntToString(s.statsPort)
  {
    assert HaproxyTopLevel(s, expand).global[2] == "stats socket " + s.haproxySocketFilePath + " level admin";
  }

  /** `_generate_nginx_top_level` */
  function NginxTopLevel(s: Settings, expand: string -> string): NginxTop {
    NginxTop(
      ["worker_processes 1", "worker_rlimit_nofile " + IntToString(s.maximumConnections * 4),
       "pid " + s.nginxPidFilePath, "error_log /dev/null crit"],
      ["tcp_nodelay on"],
      ["worker_connections " + IntToString(s.maximumConnections), "multi_accept on", "use epoll"],
      s.nginxConfigPath, expand(s.nginxCheckCmdFmt), expand(s.nginxReloadCmdFmt), expand(s.nginxStartCmdFmt),
      true, true, s.nginxRestartIntervalS, s.bindAddr)
  }

  /** NGINX and HAProxy share the connection budget: NGINX takes as many
      connections per worker as HAProxy's `maxconn`, with four file
      descriptors each, and listens on the same address. */
  lemma NginxSharesBudget(s: Settings, expand: string -> string)
    ensures var n := NginxTopLevel(s, expand);
      var h := HaproxyTopLevel(s, expand);
      && "worker_rlimit_nofile " + IntToString(4 * s.maximumConnections) in n.mainContext
      && "worker_connections " + IntToString(s.maximumConnections) in n.eventsContext
      && "maxconn " + IntToString(s.maximumConnections) in h.global
      && n.listenAddress == h.bindAddress
      && n.configFilePath == s.nginxConfigPath && n.restartInterval == s.nginxRestartIntervalS
  {
    var n := NginxTopLevel(s, expand);
    assert n.mainContext[1] == "worker_rlimit_nofile " + IntToString(4 * s.maximumConnections);
    assert n.eventsContext[0] == "worker_connections " + IntToString(s.maximumConnections);
    assert HaproxyTopLevel(s, expand).global[1] == "maxconn " + IntToString(s.maximumConnections);
  }

  /** One `errorfile <code> <path>` line per configured error file, in the
      order of the `errorfiles` object. */
  function ErrorfileLines(errorfiles: seq<(string, string)>): (r: seq<string>)
    decreases |errorfiles|
  {
    if errorfiles == [] then []
    else ["errorfile " + errorfiles[0].0 + " " + errorfiles[0].1] + ErrorfileLines(errorfiles[1..])
  }

  lemma {:induction false} ErrorfileLinesAt(errorfiles: seq<(string, string)>, i: nat)
    requires i < |errorfiles|
    ensures |ErrorfileLines(errorfiles)| == |errorfiles|
    ensures ErrorfileLines(errorfiles)[i] == "errorfile " + errorfiles[i].0 + " " + errorfiles[i].1
    decreases |errorfiles|
  {
    if i > 0 {
      ErrorfileLinesAt(errorfiles[1..], i - 1);
    } else if |errorfiles| > 1 {
      ErrorfileLinesAt(errorfiles[1..], 0);
    }
  }

  /** `generate_base_config`: no services yet, the file output directory, the
      HAProxy top level with the error files appended to `defaults`, and the
      NGINX top level when NGINX listens. */
  function BaseConfig(s: Settings, expand: string -> string): SynapseConfig {
    var h := HaproxyTopLevel(s, expand);
    SynapseConfig(
      map[], s.fileOutputPath,
      h.(defaults := h.defaults + ErrorfileLines(s.errorfiles)),
      if s.listenWithNginx then Some(NginxTopLevel(s, expand)) else None)
  }

  /** The error files close `defaults`, one line each and in order, after the
      lines of the HAProxy top level; nothing else of it changes. */
  lemma BaseConfigErrorfiles(s: Settings, expand: string -> string, i: nat)
    requires i < |s.errorfiles|
    ensures var b := BaseConfig(s, expand);
      var d := HaproxyTopLevel(s, expand).defaults;
      && |b.haproxy.defaults| == |d| + |s.errorfiles|
      && b.haproxy.defaults[..|d|] == d
      && b.haproxy.defaults[|d| + i] == "errorfile " + s.errorfiles[i].0 + " " + s.errorfiles[i].1
      && b.haproxy.global == HaproxyTopLevel(s, expand).global
  {
    ErrorfileLinesAt(s.errorfiles, i);
  }

  /** The base document has no service yet, and an NGINX top level exactly
      when NGINX listens. */
  lemma BaseConfigShape(s: Settings, expand: string -> string)
    ensures var b := BaseConfig(s, expand);
      && b.services == map[]
      && b.fileOutputDirectory == s.fileOutputPath
      && (b.nginx.Some? <==> s.listenWithNginx)
      && (b.nginx.Some? ==> b.nginx.value == NginxTopLevel(s, expand))
  {
  }
}
