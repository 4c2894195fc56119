/** The generator proper: `_get_socket_path` (configure_synapse.py:301-310),
    `base_watcher_cfg_for_service` (configure_synapse.py:497-529),
    `_generate_nginx_for_watcher` (configure_synapse.py:677-730) and
    `generate_configuration` (configure_synapse.py:366-494). */
module Generator {
  import opened Wrappers
  import opened Text
  import opened Location
  import opened ToolsConfig
  import opened Service
  import opened Document
  import opened Directives
  import opened Chaos
  import opened Routing
  import opened TopLevel

  /** What the generator takes from outside the two configuration files:
      - `env`: the location facts of the host;
      - `topology`: the ZooKeeper hosts, `host:port` strings;
      - `reapAge`: `int(DEFAULT_REAP_AGE_S)`, the reaper's connection age limit
        in seconds;
      - `expand`: `fmt.format(**synapse_tools_config)`. */
  datatype Inputs = Inputs(env: Env, topology: seq<string>, reapAge: int, expand: string -> string)

  // ---------------------------------------------------------------------------
  // Sockets
  // ---------------------------------------------------------------------------

  /** `_get_socket_path`: the service's HAProxy socket, the one that speaks the
      PROXY protocol when `proxyProto` holds. */
  function SocketPath(s: Settings, name: string, proxyProto: bool): string {
    FormatServiceName(if proxyProto then s.proxySocketsPathFmt else s.socketsPathFmt, name)
  }

  /** With the default template, a service's plain socket is named after it in
      the socket directory. */
  lemma DefaultSocketPath(s: Settings, name: string)
    requires s.socketsPathFmt == DefaultStr(HaproxyServiceSocketsPathFmt)
    ensures SocketPath(s, name, false) == SocketDir + name + ".sock"
  {
    SocketTemplate();
    FormatTemplate(SocketDir, ".sock", name);
  }

  lemma SocketTemplate()
    ensures DefaultStr(HaproxyServiceSocketsPathFmt) == SocketDir + ServiceNameField + ".sock"
    ensures '{' !in SocketDir && '{' !in ".sock"
  {
  }

  lemma ProxySocketTemplate()
    ensures DefaultStr(HaproxyServiceProxySocketsPathFmt) == SocketDir + ServiceNameField + ".proxy_sock"
    ensures '{' !in SocketDir && '{' !in ".proxy_sock"
  {
  }

  /** With the default template, so is its PROXY socket. */
  lemma DefaultProxySocketPath(s: Settings, name: string)
    requires s.proxySocketsPathFmt == DefaultStr(HaproxyServiceProxySocketsPathFmt)
    ensures SocketPath(s, name, true) == SocketDir + name + ".proxy_sock"
  {
    ProxySocketTemplate();
    FormatTemplate(SocketDir, ".proxy_sock", name);
  }

  /** With the default templates, a service's plain and PROXY sockets differ. */
  lemma DefaultSocketPaths(s: Settings, name: string)
    requires s.socketsPathFmt == DefaultStr(HaproxyServiceSocketsPathFmt)
    requires s.proxySocketsPathFmt == DefaultStr(HaproxyServiceProxySocketsPathFmt)
    ensures SocketPath(s, name, false) == SocketDir + name + ".sock"
    ensures SocketPath(s, name, true) == SocketDir + name + ".proxy_sock"
    ensures SocketPath(s, name, false) != SocketPath(s, name, true)
  {
    DefaultSocketPath(s, name);
    DefaultProxySocketPath(s, name);
    assert |SocketDir + name + ".sock"| != |SocketDir + name + ".proxy_sock"|;
  }

  /** With the default templates, different services never share a socket. */
  lemma DefaultSocketsDistinct(s: Settings, n1: string, n2: string, proxyProto: bool)
    requires s.socketsPathFmt == DefaultStr(HaproxyServiceSocketsPathFmt)
    requires s.proxySocketsPathFmt == DefaultStr(HaproxyServiceProxySocketsPathFmt)
    requires SocketPath(s, n1, proxyProto) == SocketPath(s, n2, proxyProto)
    ensures n1 == n2
  {
    DefaultSocketPaths(s, n1);
    DefaultSocketPaths(s, n2);
    var suffix := if proxyProto then ".proxy_sock" else ".sock";
    var p1, p2 := SocketDir + n1 + suffix, SocketDir + n2 + suffix;
    assert p1 == p2;
    assert |n1| == |n2|;
    assert p1[|SocketDir|..|SocketDir| + |n1|] == n1;
    assert p2[|SocketDir|..|SocketDir| + |n2|] == n2;
  }

  // ---------------------------------------------------------------------------
  // The watchers of one service
  // ---------------------------------------------------------------------------

  /** `haproxy['frontend'].extend(lines)` on a generated section. */
  function ExtendFrontend(h: HaproxySection, lines: seq<Directive>): HaproxySection {
    if h.HaproxyWatcher? && h.frontend.Some? then h.(frontend := Some(h.frontend.value + lines)) else h
  }

  /** The ZooKeeper discovery of a service. */
  function ZookeeperDiscovery(name: string, topology: seq<string>): Discovery {
    Discovery(Zookeeper("/smartstack/global/" + name, topology), None)
  }

  /** `base_watcher_cfg_for_service`: ZooKeeper discovery, the generated HAProxy
      section, the chaos lines and discovery when the service has a chaos
      object, and NGINX switched off for this watcher when NGINX listens. */
  function BaseWatcher(s: Settings, grouping: string -> string, name: string, info: ServiceInfo,
                       topology: seq<string>, isProxy: bool): Watcher {
    var discovery := ZookeeperDiscovery(name, topology);
    var haproxy := HaproxyFor(s, name, info, isProxy);
    var chaos := if info.chaos != [] then ChaosOptions(info.chaos, grouping, discovery) else ([], discovery);
    Watcher([], false, chaos.1, ExtendFrontend(haproxy, chaos.0),
            if s.listenWithNginx then Some(NginxDisabled) else None, false)
  }

  /** The NGINX listener's options: its proxy timeout outlasts the reaper by ten
      seconds, and it speaks the PROXY protocol when configured to. */
  function NginxServer(s: Settings, reapAge: int): seq<string> {
    ["proxy_timeout " + IntToString(reapAge + 10) + "s"] + (if s.proxyProto then ["proxy_protocol on"] else [])
  }

  /** `_generate_nginx_for_watcher`: a static watcher whose NGINX listens on the
      service's port in TCP mode and forwards to the HAProxy socket. */
  function NginxWatcher(s: Settings, name: string, port: int, reapAge: int): Watcher {
    var listenOptions := if s.listenWithHaproxy && s.listenWithNginx then Some("reuseport") else None;
    Watcher([DefaultServer("unix", SocketPath(s, name, s.proxyProto))], true, Discovery(BaseMethod, None),
            HaproxyDisabled, Some(NginxListener("tcp", port, NginxServer(s, reapAge), listenOptions)), true)
  }

  /** The label filter that restricts a watcher to the host's own location at
      one advertise type. */
  function LabelFilterFor(current: string -> string, advertise: string): LabelFilter {
    LabelFilter(advertise + ":" + current(advertise), "", "equals")
  }

  /** The HAProxy section of the watcher for one advertise type of a service
      with a port: the discover type's watcher gets the frontend (the port, or
      the plain socket as its bind address, and the sockets it binds), the
      others lose it; all name their backend. */
  function EntryHaproxy(s: Settings, name: string, h: HaproxySection, discover: string, advertise: string,
                        port: int): HaproxySection {
    if !h.HaproxyWatcher? then h
    else
      var sock, proxySock := SocketPath(s, name, false), SocketPath(s, name, true);
      var h' :=
        if advertise != discover then h.(frontend := None)
        else if s.listenWithHaproxy then
          ExtendFrontend(h.(port := Given(IntToString(port))), [Bind(sock), BindAcceptProxy(proxySock)])
        else ExtendFrontend(h.(port := Null, bindAddress := Some(sock)), [BindAcceptProxy(proxySock)]);
      h'.(backendName := Some(BackendName(name, discover, advertise)))
  }

  /** The watcher for one advertise type: a copy of the base one filtered to
      the host's location at that type; without a port it only discovers. */
  function Entry(s: Settings, current: string -> string, name: string, base: Watcher, discover: string,
                 advertise: string, port: Option<int>): Watcher {
    var w := base.(discovery := base.discovery.(labelFilters := Some([LabelFilterFor(current, advertise)])));
    if port.None? then
      w.(haproxy := HaproxyDisabled, nginx := if s.listenWithNginx then Some(NginxDisabled) else w.nginx)
    else w.(haproxy := EntryHaproxy(s, name, w.haproxy, discover, advertise, port.value))
  }

  /** The services object after the watchers for the advertise types
      `advertise`, in order. */
  function Entries(s: Settings, current: string -> string, name: string, base: Watcher, discover: string,
                   port: Option<int>, advertise: seq<string>, acc: map<string, Watcher>): map<string, Watcher>
    decreases |advertise|
  {
    if advertise == [] then acc
    else
      var n := |advertise| - 1;
      Entries(s, current, name, base, discover, port, advertise[..n], acc)
        [BackendName(name, discover, advertise[n]) := Entry(s, current, name, base, discover, advertise[n], port)]
  }

  // ---------------------------------------------------------------------------
  // One service, and all of them
  // ---------------------------------------------------------------------------

  /** A negative port (or none given) keeps the service out of SmartStack;
      `None` asks for discovery without load balancing. */
  predicate Skipped(info: ServiceInfo) {
    var port := ProxyPort(info);
    port.Some? && port.value < 0
  }

  /** The advertise types the service is watched at: the known ones, most
      specific first. */
  function AdvertiseTypes(info: ServiceInfo, locs: seq<string>): (r: seq<string>)
    ensures AllKnown(r, locs) && DeepestFirst(r, locs)
  {
    AdvertiseOrder(Advertise(info), locs)
  }

  /** A considered service whose discover type is not among its advertise
      types makes the whole result the empty object. */
  predicate Aborts(info: ServiceInfo, locs: seq<string>) {
    !Skipped(info) && (Discover(info).None? || Discover(info).value !in AdvertiseTypes(info, locs))
  }

  /** The key of a service's NGINX listener watcher. */
  function ListenerName(name: string): string {
    name + ".nginx_listener"
  }

  /** The base watcher of a service. */
  function Base(s: Settings, inp: Inputs, proxies: set<string>, name: string, info: ServiceInfo): Watcher {
    BaseWatcher(s, inp.env.grouping, name, info, inp.topology, name in proxies)
  }

  /** For a service with a port: the routing lines appended to the frontend of
      the service's own watcher, and the NGINX listener when NGINX listens. */
  function WithRouting(s: Settings, inp: Inputs, name: string, info: ServiceInfo, discover: string,
                       advertise: seq<string>, port: int, m: map<string, Watcher>): map<string, Watcher>
    requires discover in advertise && AllKnown(advertise, inp.env.locations)
  {
    var acls := Acls(name, discover, advertise, info.proxiedThrough, HealthcheckUri(info), inp.env.locations);
    var m' := if name in m then m[name := m[name].(haproxy := ExtendFrontend(m[name].haproxy, acls))] else m;
    if s.listenWithNginx then m'[ListenerName(name) := NginxWatcher(s, name, port, inp.reapAge)] else m'
  }

  /** The services object once a considered service's watchers are in: one per
      advertise type, then, with a port, the routing lines and the NGINX
      listener. `base` is the service's base watcher. */
  function Placed(s: Settings, inp: Inputs, name: string, info: ServiceInfo, base: Watcher, discover: string,
                  advertise: seq<string>, acc: map<string, Watcher>): map<string, Watcher>
    requires discover in advertise && AllKnown(advertise, inp.env.locations)
  {
    var port := ProxyPort(info);
    var m := Entries(s, inp.env.current, name, base, discover, port, advertise, acc);
    if port.None? then m else WithRouting(s, inp, name, info, discover, advertise, port.value, m)
  }

  /** The services object after one service (`None` once the result is the
      empty object). */
  function ServiceStep(s: Settings, inp: Inputs, proxies: set<string>, acc: map<string, Watcher>,
                       name: string, info: ServiceInfo): Option<map<string, Watcher>>
  {
    if Skipped(info) then Some(acc)
    else if Aborts(info, inp.env.locations) then None
    else Some(Placed(s, inp, name, info, Base(s, inp, proxies, name, info), Discover(info).value,
                     AdvertiseTypes(info, inp.env.locations), acc))
  }

  /** The services that some declared service is proxied through. */
  function Proxies(services: seq<(string, ServiceInfo)>): (r: set<string>)
    ensures forall p :: p in r <==> exists i :: 0 <= i < |services| && services[i].1.proxiedThrough == Some(p)
    decreases |services|
  {
    if services == [] then {}
    else
      var n := |services| - 1;
      var front := Proxies(services[..n]);
      assert forall i :: 0 <= i < n ==> services[..n][i] == services[i];
      var pt := services[n].1.proxiedThrough;
      if pt.Some? then front + {pt.value} else front
  }

  // ---------------------------------------------------------------------------
  // A loop that can give up
  // ---------------------------------------------------------------------------

  /** The state after `step` over `xs` in order, `None` once a step gives up. */
  function Fold<M, X>(step: (M, X) -> Option<M>, init: M, xs: seq<X>): Option<M>
    decreases |xs|
  {
    if xs == [] then Some(init)
    else
      match Fold(step, init, xs[..|xs| - 1])
      case None => None
      case Some(m) => step(m, xs[|xs| - 1])
  }

  lemma FoldSnoc<M, X>(step: (M, X) -> Option<M>, init: M, xs: seq<X>, i: nat)
    requires i < |xs|
    ensures Fold(step, init, xs[..i + 1])
         == match Fold(step, init, xs[..i]) case None => None case Some(m) => step(m, xs[i])
  {
    assert xs[..i + 1][..i] == xs[..i];
  }

  /** Once a step gives up, the fold stays given up. */
  lemma {:induction false} FoldGivesUp<M, X>(step: (M, X) -> Option<M>, init: M, xs: seq<X>, i: nat)
    requires i <= |xs| && Fold(step, init, xs[..i]) == None
    ensures Fold(step, init, xs) == None
    decreases |xs|
  {
    if i < |xs| {
      var n := |xs| - 1;
      assert xs[..n][..i] == xs[..i];
      FoldGivesUp(step, init, xs[..n], i);
    } else {
      assert xs[..i] == xs;
    }
  }

  /** When a step gives up exactly on the elements satisfying `gives`, the fold
      gives up exactly when one of them occurs. */
  lemma {:induction false} FoldNoneIff<M, X>(step: (M, X) -> Option<M>, gives: X -> bool, init: M, xs: seq<X>)
    requires forall m, x :: step(m, x).None? <==> gives(x)
    ensures Fold(step, init, xs).None? <==> exists i :: 0 <= i < |xs| && gives(xs[i])
    decreases |xs|
  {
    if xs != [] {
      var n := |xs| - 1;
      FoldNoneIff(step, gives, init, xs[..n]);
      assert forall i :: 0 <= i < n ==> xs[..n][i] == xs[i];
    }
  }

  /** A step that leaves the state as it is leaves no trace in the fold. */
  lemma FoldIdle<M, X>(step: (M, X) -> Option<M>, init: M, xs: seq<X>, x: X)
    requires forall m :: step(m, x) == Some(m)
    ensures Fold(step, init, xs + [x]) == Fold(step, init, xs)
  {
    assert (xs + [x])[..|xs|] == xs;
  }

  // ---------------------------------------------------------------------------
  // All services
  // ---------------------------------------------------------------------------

  /** One service's step, as a function of the services object so far. */
  function StepFn(s: Settings, inp: Inputs, proxies: set<string>)
    : (map<string, Watcher>, (string, ServiceInfo)) -> Option<map<string, Watcher>>
  {
    (m: map<string, Watcher>, x: (string, ServiceInfo)) => ServiceStep(s, inp, proxies, m, x.0, x.1)
  }

  /** The services object after the services of `services`, in order. */
  function ServicesMap(s: Settings, inp: Inputs, proxies: set<string>, services: seq<(string, ServiceInfo)>)
    : Option<map<string, Watcher>>
  {
    Fold(StepFn(s, inp, proxies), map[], services)
  }

  /** `generate_configuration`: the base document with the services object, or
      `None` for the empty object. */
  function Configuration(s: Settings, inp: Inputs, services: seq<(string, ServiceInfo)>): Option<SynapseConfig> {
    var m :- ServicesMap(s, inp, Proxies(services), services);
    Some(BaseConfig(s, inp.expand).(services := m))
  }

  // ---------------------------------------------------------------------------
  // The generator's loops
  // ---------------------------------------------------------------------------

  /** `generate_configuration`: the loop over the services. */
  method GenerateConfiguration(s: Settings, inp: Inputs, services: seq<(string, ServiceInfo)>)
    returns (r: Option<SynapseConfig>)
    ensures r == Configuration(s, inp, services)
  {
    var config := BaseConfig(s, inp.expand);
    var proxies := Proxies(services);
    ghost var step := StepFn(s, inp, proxies);
    var result: map<string, Watcher> := map[];
    for i := 0 to |services|
      invariant Fold(step, map[], services[..i]) == Some(result)
    {
      var (name, info) := services[i];
      FoldSnoc(step, map[], services, i);
      var next := AddService(s, inp, proxies, result, name, info);
      if next.None? {
        FoldGivesUp(step, map[], services, i + 1);
        return None;
      }
      result := next.value;
    }
    assert services[..|services|] == services;
    r := Some(config.(services := result));
  }

  /** The body of the loop over the services: skip, give up, or add the
      service's watchers. */
  method AddService(s: Settings, inp: Inputs, proxies: set<string>, acc: map<string, Watcher>,
                    name: string, info: ServiceInfo)
    returns (r: Option<map<string, Watcher>>)
    ensures r == ServiceStep(s, inp, proxies, acc, name, info)
  {
    var locs := inp.env.locations;
    var port := ProxyPort(info);
    if port.Some? && port.value < 0 {
      return Some(acc);
    }
    var discoverType := Discover(info);
    var advertiseTypes := AdvertiseTypes(info, locs);
    if discoverType.None? || discoverType.value !in advertiseTypes {
      return None;
    }
    var discover := discoverType.value;
    var base := BaseWatcher(s, inp.env.grouping, name, info, inp.topology, name in proxies);
    var m := AddEntries(s, inp.env.current, name, base, discover, port, advertiseTypes, acc);
    if port.Some? {
      var acls := GenerateAcls(name, discover, advertiseTypes, info.proxiedThrough, HealthcheckUri(info), locs);
      if name in m {
        m := m[name := m[name].(haproxy := ExtendFrontend(m[name].haproxy, acls))];
      }
      if s.listenWithNginx {
        m := m[ListenerName(name) := NginxWatcher(s, name, port.value, inp.reapAge)];
      }
    }
    return Some(m);
  }

  /** The loop over one service's advertise types. */
  method AddEntries(s: Settings, current: string -> string, name: string, base: Watcher, discover: string,
                    port: Option<int>, advertiseTypes: seq<string>, acc: map<string, Watcher>)
    returns (m: map<string, Watcher>)
    ensures m == Entries(s, current, name, base, discover, port, advertiseTypes, acc)
  {
    m := acc;
    for j := 0 to |advertiseTypes|
      invariant m == Entries(s, current, name, base, discover, port, advertiseTypes[..j], acc)
    {
      var advertise := advertiseTypes[j];
      var backend := BackendName(name, discover, advertise);
      var entry := Entry(s, current, name, base, discover, advertise, port);
      assert advertiseTypes[..j + 1][..j] == advertiseTypes[..j];
      m := m[backend := entry];
    }
    assert advertiseTypes[..|advertiseTypes|] == advertiseTypes;
  }
}
