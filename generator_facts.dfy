/** What `generate_configuration` (configure_synapse.py:366-494) promises about
    the watchers it writes. */
module GeneratorFacts {
  import opened Wrappers
  import opened Text
  import opened Location
  import opened ToolsConfig
  import opened Service
  import opened Document
  import opened Directives
  import opened Chaos
  import opened Routing
  import opened TopLevel
  import opened Generator

  // ---------------------------------------------------------------------------
  // The base watcher and the NGINX listener
  // ---------------------------------------------------------------------------

  /** A service's dynamic watcher: no static servers, no reuse of old backends,
      the generated frontend followed by at most the two chaos lines, the
      generated backend, and ZooKeeper discovery at the service's path unless
      chaos fails it with `error_503`. NGINX leaves it alone when NGINX
      listens. */
  lemma BaseWatcherShape(s: Settings, grouping: string -> string, name: string, info: ServiceInfo,
                         topology: seq<string>, isProxy: bool)
    ensures var w := BaseWatcher(s, grouping, name, info, topology, isProxy);
      && w.defaultServers == [] && !w.usePreviousBackends && !w.fileOutputDisabled
      && w.haproxy.HaproxyWatcher? && w.haproxy.frontend.Some?
      && |Frontend(s, info)| <= |w.haproxy.frontend.value| <= |Frontend(s, info)| + 2
      && w.haproxy.frontend.value[..|Frontend(s, info)|] == Frontend(s, info)
      && w.haproxy.backend == Backend(s, name, info, isProxy)
      && w.haproxy.port.Missing? && w.haproxy.bindAddress.None? && w.haproxy.backendName.None?
      && w.discovery.labelFilters.None?
      && (w.discovery.source == Zookeeper("/smartstack/global/" + name, topology)
          || (info.chaos != [] && Fails503(Merged(info.chaos, grouping)) && w.discovery.source == BaseMethod))
      && (w.nginx.Some? <==> s.listenWithNginx) && (w.nginx.Some? ==> w.nginx.value == NginxDisabled)
  {
    var w := BaseWatcher(s, grouping, name, info, topology, isProxy);
    var f := Frontend(s, info);
    assert w.haproxy.frontend.value[..|f|] == f;
    if info.chaos != [] {
      DiscoveryReplacedOnFailure(Merged(info.chaos, grouping), ZookeeperDiscovery(name, topology));
    }
  }

  /** Without chaos the dynamic watcher carries the generated HAProxy section
      unchanged. */
  lemma NoChaosNoChange(s: Settings, grouping: string -> string, name: string, info: ServiceInfo,
                        topology: seq<string>, isProxy: bool)
    requires info.chaos == []
    ensures BaseWatcher(s, grouping, name, info, topology, isProxy).haproxy == HaproxyFor(s, name, info, isProxy)
    ensures BaseWatcher(s, grouping, name, info, topology, isProxy).discovery == ZookeeperDiscovery(name, topology)
  {
    var h := HaproxyFor(s, name, info, isProxy);
    assert h.frontend.value + [] == h.frontend.value;
  }

  /** The NGINX listener's watcher is static: HAProxy, file output and
      discovery are off, previous backends are kept, and its single server is
      the service's HAProxy socket, the PROXY one exactly when NGINX speaks
      that protocol. It listens in TCP mode on the service's port, with
      `reuseport` exactly when HAProxy listens on ports too, and holds
      connections ten seconds longer than the reaper. */
  lemma NginxWatcherShape(s: Settings, name: string, port: int, reapAge: int)
    requires s.listenWithNginx
    ensures var w := NginxWatcher(s, name, port, reapAge);
      && w.haproxy == HaproxyDisabled && w.fileOutputDisabled && w.usePreviousBackends
      && w.discovery == Discovery(BaseMethod, None)
      && w.defaultServers == [DefaultServer("unix", SocketPath(s, name, s.proxyProto))]
      && w.nginx.Some? && w.nginx.value.NginxListener?
      && w.nginx.value.mode == "tcp" && w.nginx.value.port == port
      && (w.nginx.value.listenOptions == Some("reuseport") <==> s.listenWithHaproxy)
      && (w.nginx.value.listenOptions.Some? ==> s.listenWithHaproxy)
      && w.nginx.value.server[0] == "proxy_timeout " + IntToString(reapAge + 10) + "s"
      && ("proxy_protocol on" in w.nginx.value.server <==> s.proxyProto)
  {
    var server := NginxServer(s, reapAge);
    if s.proxyProto {
      assert server[1] == "proxy_protocol on";
    } else {
      ProxyTimeoutNotProtocol(reapAge);
    }
  }

  lemma ProxyTimeoutNotProtocol(reapAge: int)
    ensures "proxy_timeout " + IntToString(reapAge + 10) + "s" != "proxy_protocol on"
  {
    var t := "proxy_timeout " + IntToString(reapAge + 10) + "s";
    assert t[6] == 't' && "proxy_protocol on"[6] == 'p';
  }

  // ---------------------------------------------------------------------------
  // The watchers of one service
  // ---------------------------------------------------------------------------

  /** Every watcher of a service watches the same discovery as its base,
      filtered to the host's own location at the watcher's advertise type. */
  lemma EntryDiscovery(s: Settings, current: string -> string, name: string, base: Watcher, discover: string,
                       advertise: string, port: Option<int>)
    ensures var w := Entry(s, current, name, base, discover, advertise, port);
      && w.discovery.source == base.discovery.source
      && w.discovery.labelFilters == Some([LabelFilter(advertise + ":" + current(advertise), "", "equals")])
      && w.defaultServers == base.defaultServers && w.usePreviousBackends == base.usePreviousBackends
  {
  }

  /** Without a port a service is only discovered: its watchers have HAProxy
      off, and NGINX off when NGINX listens. */
  lemma EntryWithoutPort(s: Settings, current: string -> string, name: string, base: Watcher, discover: string,
                         advertise: string)
    requires s.listenWithNginx ==> base.nginx == Some(NginxDisabled)
    ensures var w := Entry(s, current, name, base, discover, advertise, None);
      w.haproxy == HaproxyDisabled && w.nginx == base.nginx
  {
  }

  /** With a port, the watcher of the discover type keeps the frontend and
      binds the service's sockets: on its port and the plain socket when
      HAProxy listens on ports, otherwise the plain socket as its bind address
      and no port; in both cases the PROXY socket with `accept-proxy`. Its
      backend is named after the service. */
  lemma EntryPrimary(s: Settings, current: string -> string, name: string, base: Watcher, discover: string, port: int)
    requires base.haproxy.HaproxyWatcher? && base.haproxy.frontend.Some?
    ensures var h := Entry(s, current, name, base, discover, discover, Some(port)).haproxy;
      var sock, proxySock := SocketPath(s, name, false), SocketPath(s, name, true);
      && h.HaproxyWatcher? && h.frontend.Some?
      && h.backendName == Some(name)
      && h.serverOptions == base.haproxy.serverOptions && h.backend == base.haproxy.backend
      && (s.listenWithHaproxy ==>
            h.port == Given(IntToString(port)) && h.bindAddress == base.haproxy.bindAddress
            && h.frontend.value == base.haproxy.frontend.value + [Bind(sock), BindAcceptProxy(proxySock)])
      && (!s.listenWithHaproxy ==>
            h.port == Null && h.bindAddress == Some(sock)
            && h.frontend.value == base.haproxy.frontend.value + [BindAcceptProxy(proxySock)])
  {
  }

  /** With a port, the watchers of the other advertise types have no frontend
      and a backend named after the service and the type. */
  lemma EntrySecondary(s: Settings, current: string -> string, name: string, base: Watcher, discover: string,
                       advertise: string, port: int)
    requires base.haproxy.HaproxyWatcher? && advertise != discover
    ensures var h := Entry(s, current, name, base, discover, advertise, Some(port)).haproxy;
      && h.HaproxyWatcher? && h.frontend.None?
      && h.backendName == Some(name + "." + advertise)
      && h.port == base.haproxy.port && h.backend == base.haproxy.backend
  {
  }

  /** The keys `Entries` adds are the backend names of the advertise types. */
  lemma {:induction false} EntriesKeys(s: Settings, current: string -> string, name: string, base: Watcher,
                                       discover: string, port: Option<int>, advertise: seq<string>,
                                       acc: map<string, Watcher>, k: string)
    ensures k in Entries(s, current, name, base, discover, port, advertise, acc)
      <==> k in acc || exists i :: 0 <= i < |advertise| && k == BackendName(name, discover, advertise[i])
    decreases |advertise|
  {
    if advertise != [] {
      var n := |advertise| - 1;
      EntriesKeys(s, current, name, base, discover, port, advertise[..n], acc, k);
      if exists i :: 0 <= i < |advertise| && k == BackendName(name, discover, advertise[i]) {
        var i :| 0 <= i < |advertise| && k == BackendName(name, discover, advertise[i]);
        if i < n {
          assert advertise[..n][i] == advertise[i];
        }
      }
      if exists i :: 0 <= i < n && k == BackendName(name, discover, advertise[..n][i]) {
        var i :| 0 <= i < n && k == BackendName(name, discover, advertise[..n][i]);
        assert k == BackendName(name, discover, advertise[i]);
      }
    }
  }

  /** The watcher under an advertise type's backend name is the one for that
      type: different types never share a name. */
  lemma {:induction false} EntriesAt(s: Settings, current: string -> string, name: string, base: Watcher,
                                     discover: string, port: Option<int>, advertise: seq<string>,
                                     acc: map<string, Watcher>, i: nat)
    requires i < |advertise|
    ensures var m := Entries(s, current, name, base, discover, port, advertise, acc);
      var k := BackendName(name, discover, advertise[i]);
      k in m && m[k] == Entry(s, current, name, base, discover, advertise[i], port)
    decreases |advertise|
  {
    var n := |advertise| - 1;
    if advertise[n] != advertise[i] {
      if BackendName(name, discover, advertise[n]) == BackendName(name, discover, advertise[i]) {
        BackendNameInjective(name, discover, advertise[n], advertise[i]);
      }
      assert advertise[..n][i] == advertise[i];
      EntriesAt(s, current, name, base, discover, port, advertise[..n], acc, i);
    }
  }

  /** A key that is no backend name of the advertise types keeps its watcher. */
  lemma {:induction false} EntriesElsewhere(s: Settings, current: string -> string, name: string, base: Watcher,
                                            discover: string, port: Option<int>, advertise: seq<string>,
                                            acc: map<string, Watcher>, k: string)
    requires forall i :: 0 <= i < |advertise| ==> k != BackendName(name, discover, advertise[i])
    ensures var m := Entries(s, current, name, base, discover, port, advertise, acc);
      (k in m <==> k in acc) && (k in acc ==> m[k] == acc[k])
    decreases |advertise|
  {
    if advertise != [] {
      var n := |advertise| - 1;
      assert forall i :: 0 <= i < n ==> advertise[..n][i] == advertise[i];
      EntriesElsewhere(s, current, name, base, discover, port, advertise[..n], acc, k);
    }
  }

  // ---------------------------------------------------------------------------
  // One service
  // ---------------------------------------------------------------------------

  /** The sockets the watcher of the discover type binds. */
  function Binds(s: Settings, name: string): seq<Directive> {
    var sock, proxySock := SocketPath(s, name, false), SocketPath(s, name, true);
    if s.listenWithHaproxy then [Bind(sock), BindAcceptProxy(proxySock)] else [BindAcceptProxy(proxySock)]
  }

  /** A service is skipped, aborts the whole result, or has its watchers
      placed: the discover type is then among the advertise types, and the
      base watcher carries a frontend. */
  lemma StepOutcome(s: Settings, inp: Inputs, proxies: set<string>, acc: map<string, Watcher>,
                    name: string, info: ServiceInfo)
    ensures ServiceStep(s, inp, proxies, acc, name, info).None? <==> Aborts(info, inp.env.locations)
    ensures Skipped(info) ==> ServiceStep(s, inp, proxies, acc, name, info) == Some(acc)
    ensures !Skipped(info) && !Aborts(info, inp.env.locations) ==>
      var base := Base(s, inp, proxies, name, info);
      var d := Discover(info).value;
      var adv := AdvertiseTypes(info, inp.env.locations);
      && d in adv && AllKnown(adv, inp.env.locations)
      && base.haproxy.HaproxyWatcher? && base.haproxy.frontend.Some? && base.haproxy.backendName.None?
      && (s.listenWithNginx ==> base.nginx == Some(NginxDisabled))
      && ServiceStep(s, inp, proxies, acc, name, info) == Some(Placed(s, inp, name, info, base, d, adv, acc))
  {
    BaseWatcherShape(s, inp.env.grouping, name, info, inp.topology, name in proxies);
  }

  lemma ListenerNameFresh(name: string)
    ensures ListenerName(name) != name
  {
    assert |ListenerName(name)| > |name|;
  }

  /** With a port, the service's own watcher has the frontend: the base lines,
      the sockets it binds, then the routing lines; its backend is the
      service's own, and it listens on the port exactly when HAProxy listens
      on ports, on the plain socket otherwise. */
  lemma PrimaryWatcher(s: Settings, inp: Inputs, name: string, info: ServiceInfo, base: Watcher,
                       discover: string, advertise: seq<string>, acc: map<string, Watcher>)
    requires discover in advertise && AllKnown(advertise, inp.env.locations)
    requires base.haproxy.HaproxyWatcher? && base.haproxy.frontend.Some?
    requires ProxyPort(info).Some?
    ensures var m := Placed(s, inp, name, info, base, discover, advertise, acc);
      var acls := Acls(name, discover, advertise, info.proxiedThrough, HealthcheckUri(info), inp.env.locations);
      && name in m && m[name].haproxy.HaproxyWatcher?
      && m[name].haproxy.backendName == Some(name)
      && m[name].haproxy.frontend == Some(base.haproxy.frontend.value + Binds(s, name) + acls)
      && (s.listenWithHaproxy ==> m[name].haproxy.port == Given(IntToString(ProxyPort(info).value)))
      && (!s.listenWithHaproxy ==>
            m[name].haproxy.port == Null && m[name].haproxy.bindAddress == Some(SocketPath(s, name, false)))
  {
    var i :| 0 <= i < |advertise| && advertise[i] == discover;
    EntriesAt(s, inp.env.current, name, base, discover, ProxyPort(info), advertise, acc, i);
    EntryPrimary(s, inp.env.current, name, base, discover, ProxyPort(info).value);
    ListenerNameFresh(name);
  }

  /** With a port, the watchers of the other advertise types have no frontend
      and a backend of their own (unless the NGINX listener takes the key). */
  lemma SecondaryWatcher(s: Settings, inp: Inputs, name: string, info: ServiceInfo, base: Watcher,
                         discover: string, advertise: seq<string>, acc: map<string, Watcher>, i: nat)
    requires discover in advertise && AllKnown(advertise, inp.env.locations)
    requires base.haproxy.HaproxyWatcher? && ProxyPort(info).Some?
    requires i < |advertise| && advertise[i] != discover
    requires s.listenWithNginx ==> name + "." + advertise[i] != ListenerName(name)
    ensures var m := Placed(s, inp, name, info, base, discover, advertise, acc);
      var k := name + "." + advertise[i];
      k in m && m[k].haproxy.HaproxyWatcher? && m[k].haproxy.frontend.None? && m[k].haproxy.backendName == Some(k)
  {
    EntriesAt(s, inp.env.current, name, base, discover, ProxyPort(info), advertise, acc, i);
    EntrySecondary(s, inp.env.current, name, base, discover, advertise[i], ProxyPort(info).value);
    BackendNameOwn(name, discover, advertise[i]);
  }

  /** Without a port every watcher of the service has HAProxy off (and NGINX
      off when NGINX listens), and there is neither routing nor a listener:
      the service adds nothing but these watchers. */
  lemma PortlessWatchers(s: Settings, inp: Inputs, name: string, info: ServiceInfo, base: Watcher,
                         discover: string, advertise: seq<string>, acc: map<string, Watcher>, i: nat)
    requires discover in advertise && AllKnown(advertise, inp.env.locations)
    requires s.listenWithNginx ==> base.nginx == Some(NginxDisabled)
    requires ProxyPort(info).None? && i < |advertise|
    ensures var m := Placed(s, inp, name, info, base, discover, advertise, acc);
      var k := BackendName(name, discover, advertise[i]);
      && m == Entries(s, inp.env.current, name, base, discover, None, advertise, acc)
      && k in m && m[k].haproxy == HaproxyDisabled && (s.listenWithNginx ==> m[k].nginx == Some(NginxDisabled))
  {
    EntriesAt(s, inp.env.current, name, base, discover, None, advertise, acc, i);
  }

  /** Each watcher of the service is filtered to the host's location at its
      own advertise type (unless the NGINX listener takes the key), and
      watches what the base watcher watches. */
  lemma WatcherLabels(s: Settings, inp: Inputs, name: string, info: ServiceInfo, base: Watcher,
                      discover: string, advertise: seq<string>, acc: map<string, Watcher>, i: nat)
    requires discover in advertise && AllKnown(advertise, inp.env.locations)
    requires i < |advertise|
    requires ProxyPort(info).Some? && s.listenWithNginx ==> BackendName(name, discover, advertise[i]) != ListenerName(name)
    ensures var m := Placed(s, inp, name, info, base, discover, advertise, acc);
      var k := BackendName(name, discover, advertise[i]);
      && k in m && m[k].discovery.labelFilters == Some([LabelFilterFor(inp.env.current, advertise[i])])
      && m[k].discovery.source == base.discovery.source
  {
    EntriesAt(s, inp.env.current, name, base, discover, ProxyPort(info), advertise, acc, i);
  }

  /** With a port and NGINX listening, the service gets an NGINX listener
      watcher, which forwards to a socket the service's own HAProxy frontend
      listens on: the PROXY socket (bound with `accept-proxy`) when NGINX
      speaks the PROXY protocol, the plain one otherwise. */
  lemma NginxReachesHaproxy(s: Settings, inp: Inputs, name: string, info: ServiceInfo, base: Watcher,
                            discover: string, advertise: seq<string>, acc: map<string, Watcher>)
    requires discover in advertise && AllKnown(advertise, inp.env.locations)
    requires base.haproxy.HaproxyWatcher? && base.haproxy.frontend.Some?
    requires ProxyPort(info).Some? && s.listenWithNginx
    ensures var m := Placed(s, inp, name, info, base, discover, advertise, acc);
      && ListenerName(name) in m && name in m
      && m[ListenerName(name)] == NginxWatcher(s, name, ProxyPort(info).value, inp.reapAge)
      && m[name].haproxy.HaproxyWatcher? && m[name].haproxy.frontend.Some?
      && var target := m[ListenerName(name)].defaultServers[0].port;
         (s.proxyProto ==> BindAcceptProxy(target) in m[name].haproxy.frontend.value)
         && (!s.proxyProto ==> Bind(target) in m[name].haproxy.frontend.value
                               || m[name].haproxy.bindAddress == Some(target))
  {
    PrimaryWatcher(s, inp, name, info, base, discover, advertise, acc);
    var m := Placed(s, inp, name, info, base, discover, advertise, acc);
    var b := base.haproxy.frontend.value;
    var f := m[name].haproxy.frontend.value;
    var offset := |b| + (if s.listenWithHaproxy then 1 else 0);
    assert f[offset] == BindAcceptProxy(SocketPath(s, name, true));
    if s.listenWithHaproxy {
      assert f[|b|] == Bind(SocketPath(s, name, false));
    }
  }

  /** A service adds exactly its watchers, keyed by backend name, and with a
      port and NGINX listening, its listener. */
  lemma PlacedKeys(s: Settings, inp: Inputs, name: string, info: ServiceInfo, base: Watcher,
                   discover: string, advertise: seq<string>, acc: map<string, Watcher>, k: string)
    requires discover in advertise && AllKnown(advertise, inp.env.locations)
    ensures k in Placed(s, inp, name, info, base, discover, advertise, acc)
      <==> (|| k in acc
            || (exists i :: 0 <= i < |advertise| && k == BackendName(name, discover, advertise[i]))
            || (ProxyPort(info).Some? && s.listenWithNginx && k == ListenerName(name)))
  {
    EntriesKeys(s, inp.env.current, name, base, discover, ProxyPort(info), advertise, acc, k);
    var i :| 0 <= i < |advertise| && advertise[i] == discover;
    EntriesKeys(s, inp.env.current, name, base, discover, ProxyPort(info), advertise, acc, name);
    assert name == BackendName(name, discover, advertise[i]);
  }

  /** The watchers already written for other keys stay as they were. */
  lemma PlacedKeepsOthers(s: Settings, inp: Inputs, name: string, info: ServiceInfo, base: Watcher,
                          discover: string, advertise: seq<string>, acc: map<string, Watcher>, k: string)
    requires discover in advertise && AllKnown(advertise, inp.env.locations) && k in acc
    requires forall i :: 0 <= i < |advertise| ==> k != BackendName(name, discover, advertise[i])
    requires k != ListenerName(name)
    ensures var m := Placed(s, inp, name, info, base, discover, advertise, acc);
      k in m && m[k] == acc[k]
  {
    EntriesElsewhere(s, inp.env.current, name, base, discover, ProxyPort(info), advertise, acc, k);
    var i :| 0 <= i < |advertise| && advertise[i] == discover;
    assert k != BackendName(name, discover, advertise[i]);
  }

  // ---------------------------------------------------------------------------
  // All services
  // ---------------------------------------------------------------------------

  /** The services object is given up exactly when some considered service's
      discover type is not among its advertise types. */
  lemma ServicesGiveUpIff(s: Settings, inp: Inputs, proxies: set<string>, services: seq<(string, ServiceInfo)>)
    ensures ServicesMap(s, inp, proxies, services).None?
      <==> exists i :: 0 <= i < |services| && Aborts(services[i].1, inp.env.locations)
  {
    var step := StepFn(s, inp, proxies);
    var locs := inp.env.locations;
    var gives := (x: (string, ServiceInfo)) => Aborts(x.1, locs);
    forall m, x ensures step(m, x).None? <==> gives(x) {
      StepOutcome(s, inp, proxies, m, x.0, x.1);
    }
    FoldNoneIff(step, gives, map[], services);
  }

  /** `generate_configuration` returns `{}` exactly when some considered
      service's discover type is not among its advertise types; otherwise the
      base document with the services object. */
  lemma ConfigurationResult(s: Settings, inp: Inputs, services: seq<(string, ServiceInfo)>)
    ensures Configuration(s, inp, services).None?
      <==> exists i :: 0 <= i < |services| && Aborts(services[i].1, inp.env.locations)
    ensures Configuration(s, inp, services).Some? ==>
      Configuration(s, inp, services).value
      == BaseConfig(s, inp.expand).(services := ServicesMap(s, inp, Proxies(services), services).value)
  {
    ServicesGiveUpIff(s, inp, Proxies(services), services);
  }

  /** A skipped service leaves no trace in the services object. */
  lemma SkippedLeavesNoTrace(s: Settings, inp: Inputs, proxies: set<string>, services: seq<(string, ServiceInfo)>,
                             name: string, info: ServiceInfo)
    requires Skipped(info)
    ensures ServicesMap(s, inp, proxies, services + [(name, info)]) == ServicesMap(s, inp, proxies, services)
  {
    var step := StepFn(s, inp, proxies);
    forall m ensures step(m, (name, info)) == Some(m) {
      StepOutcome(s, inp, proxies, m, name, info);
    }
    FoldIdle(step, map[], services, (name, info));
  }
}
