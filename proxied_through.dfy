/** The `ProxiedThrough` HAProxy configuration plugin
    (config_plugins/proxied_through.py): the lines that hand a service's
    requests to the service it is proxied through, and the lines that mark
    the requests a proxy forwards. */
module ProxiedThrough {
  import opened Wrappers
  import opened Service
  import opened Document
  import opened Directives
  import opened Routing

  /** `global_options`: the plugin adds nothing to the global section. */
  function GlobalOptions(name: string, info: ServiceInfo): (r: seq<Directive>) {
    []
  }

  /** `frontend_options`: nothing when `proxied_through` is absent or `None`;
      otherwise the status-request and from-proxy tests, the proxy's slot
      test, the destination header, and the switch to the proxy's backend. */
  function FrontendOptions(name: string, info: ServiceInfo): (r: seq<Directive>) {
    if info.proxiedThrough.None? then []
    else
      var p := info.proxiedThrough.value;
      [AclIsStatusRequest(HealthcheckUri(info)), AclRequestFromProxy(p), AclProxiedThroughHasConnslots(p),
       ReqaddDestination(name), UseBackendIfProxied(p)]
  }

  /** `backend_options`: nothing unless the service is a proxy; then the
      status-request test and the header naming the proxy as the source. */
  function BackendOptions(name: string, info: ServiceInfo): (r: seq<Directive>) {
    if !info.isProxy then []
    else [AclIsStatusRequest(HealthcheckUri(info)), ReqaddSource(name)]
  }

  /** The plugin switches to a backend exactly when the service is proxied
      through one, and that backend is the proxy; it never switches to a
      backend of the service's own, and the global section stays empty. */
  lemma PluginFrontendRoutesToProxy(name: string, info: ServiceInfo)
    ensures forall p :: UseBackendIfProxied(p) in FrontendOptions(name, info) <==> info.proxiedThrough == Some(p)
    ensures forall b :: UseBackendIfHasConnslots(b) !in FrontendOptions(name, info)
    ensures |FrontendOptions(name, info)| == (if info.proxiedThrough.Some? then 5 else 0)
    ensures GlobalOptions(name, info) == []
  {
    if info.proxiedThrough.Some? {
      assert FrontendOptions(name, info)[4] == UseBackendIfProxied(info.proxiedThrough.value);
    }
  }

  /** For a non-empty `proxied_through` the plugin's lines are the generator's
      proxy block with its last two lines swapped: the destination header
      comes before the switch. */
  lemma PluginFrontendMatchesGenerator(name: string, info: ServiceInfo)
    requires Truthy(info.proxiedThrough)
    ensures var r := FrontendOptions(name, info);
      var g := ProxyAcls(name, info.proxiedThrough, HealthcheckUri(info));
      |r| == |g| == 5 && r[..3] == g[..3] && r[3] == g[4] && r[4] == g[3]
  {
  }

  /** An empty `proxied_through` is where the two part ways: the generator
      tests truthiness and writes no block, the plugin tests for `None` and
      writes all five lines. */
  lemma EmptyProxyDiffers(name: string, info: ServiceInfo)
    requires info.proxiedThrough == Some("")
    ensures ProxyAcls(name, info.proxiedThrough, HealthcheckUri(info)) == []
    ensures |FrontendOptions(name, info)| == 5 && UseBackendIfProxied("") in FrontendOptions(name, info)
  {
    assert FrontendOptions(name, info)[4] == UseBackendIfProxied("");
  }

  /** The plugin's backend lines are the ones the generator writes for a
      proxy, under the service's own `is_proxy` flag. */
  lemma PluginBackendMatchesGenerator(name: string, info: ServiceInfo)
    ensures BackendOptions(name, info) == ProxyLines(name, info, info.isProxy)
    ensures BackendOptions(name, info) != [] <==> info.isProxy
    ensures info.isProxy ==> ReqaddSource(name) in BackendOptions(name, info)
  {
    if info.isProxy {
      assert BackendOptions(name, info)[1] == ReqaddSource(name);
    }
  }
}
