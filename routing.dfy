/** Frontend routing: `get_backend_name` (configure_synapse.py:294-298) and
    `generate_acls_for_service` (configure_synapse.py:313-363). */
module Routing {
  import opened Wrappers
  import opened Location
  import opened Service
  import opened Document

  /** `get_backend_name`: the service's own name for its discover type, the
      name suffixed with the advertise type otherwise. */
  function BackendName(service: string, discover: string, advertise: string): string {
    if advertise == discover then service else service + "." + advertise
  }

  /** Different advertise types of one service get different backend names, so
      their watchers never share a key. */
  lemma BackendNameInjective(service: string, discover: string, a1: string, a2: string)
    requires BackendName(service, discover, a1) == BackendName(service, discover, a2)
    ensures a1 == a2
  {
    var n1, n2 := BackendName(service, discover, a1), BackendName(service, discover, a2);
    if a1 != discover && a2 != discover {
      assert n1[|service| + 1..] == a1 && n2[|service| + 1..] == a2;
    }
  }

  /** The backend name is the service's own name exactly for the discover type. */
  lemma BackendNameOwn(service: string, discover: string, advertise: string)
    ensures BackendName(service, discover, advertise) == service <==> advertise == discover
  {
    if advertise != discover {
      assert |BackendName(service, discover, advertise)| > |service|;
    }
  }

  /** The block that hands requests to the service this one is proxied
      through: status requests and requests already from that proxy stay, the
      rest go to the proxy while it has free connection slots, with this
      service's name as their destination. */
  function ProxyAcls(service: string, proxiedThrough: Option<string>, healthcheckUri: string): seq<Directive> {
    if Truthy(proxiedThrough) then
      var p := proxiedThrough.value;
      [AclIsStatusRequest(healthcheckUri), AclRequestFromProxy(p), AclProxiedThroughHasConnslots(p),
       UseBackendIfProxied(p), ReqaddDestination(service)]
    else []
  }

  /** `compare_types(discover_type, advertise_type) < 0`: routing to a backend
      more specific than the discover type would downcast the request. */
  predicate Downcasts(locs: seq<string>, discover: string, advertise: string)
    requires discover in locs && advertise in locs
  {
    CompareTypes(locs, discover, advertise) < 0
  }

  /** The advertise types that get a route, in order. */
  function Kept(locs: seq<string>, discover: string, advertise: seq<string>): (r: seq<string>)
    requires discover in locs && AllKnown(advertise, locs)
    ensures |r| <= |advertise|
    decreases |advertise|
  {
    if advertise == [] then []
    else
      var n := |advertise| - 1;
      var front := Kept(locs, discover, advertise[..n]);
      if Downcasts(locs, discover, advertise[n]) then front else front + [advertise[n]]
  }

  /** An advertise type gets a route exactly when it is no more specific than
      the discover type. */
  lemma {:induction false} KeptMembers(locs: seq<string>, discover: string, advertise: seq<string>)
    requires discover in locs && AllKnown(advertise, locs)
    ensures forall t :: t in Kept(locs, discover, advertise) <==> t in advertise && Depth(locs, t) <= Depth(locs, discover)
    decreases |advertise|
  {
    if advertise != [] {
      var n := |advertise| - 1;
      assert advertise == advertise[..n] + [advertise[n]];
      KeptMembers(locs, discover, advertise[..n]);
    }
  }

  /** No advertise type is kept when all of them are more specific than the
      discover type. */
  lemma {:induction false} KeptNone(locs: seq<string>, discover: string, advertise: seq<string>)
    requires discover in locs && AllKnown(advertise, locs)
    requires forall i :: 0 <= i < |advertise| ==> Depth(locs, advertise[i]) > Depth(locs, discover)
    ensures Kept(locs, discover, advertise) == []
    decreases |advertise|
  {
    if advertise != [] {
      var n := |advertise| - 1;
      assert forall i :: 0 <= i < n ==> advertise[..n][i] == advertise[i];
      KeptNone(locs, discover, advertise[..n]);
    }
  }

  /** The two routing lines for one backend: a connection-slot check, then the
      `use_backend` it gates. */
  function RoutePair(backend: string): seq<Directive> {
    [AclHasConnslots(backend), UseBackendIfHasConnslots(backend)]
  }

  /** One routing pair per kept advertise type, in order. */
  function Routes(service: string, discover: string, kept: seq<string>): (r: seq<Directive>)
    ensures |r| == 2 * |kept|
    decreases |kept|
  {
    if kept == [] then []
    else
      var n := |kept| - 1;
      Routes(service, discover, kept[..n]) + RoutePair(BackendName(service, discover, kept[n]))
  }

  /** The `i`-th kept type's pair sits at positions `2i` and `2i + 1`. */
  lemma {:induction false} RouteAt(service: string, discover: string, kept: seq<string>, i: nat)
    requires i < |kept|
    ensures Routes(service, discover, kept)[2 * i] == AclHasConnslots(BackendName(service, discover, kept[i]))
    ensures Routes(service, discover, kept)[2 * i + 1] == UseBackendIfHasConnslots(BackendName(service, discover, kept[i]))
    decreases |kept|
  {
    var n := |kept| - 1;
    if i < n {
      RouteAt(service, discover, kept[..n], i);
    }
  }

  lemma RoutesAt(service: string, discover: string, kept: seq<string>)
    ensures var r := Routes(service, discover, kept);
      forall i :: 0 <= i < |kept| ==>
        r[2 * i] == AclHasConnslots(BackendName(service, discover, kept[i]))
        && r[2 * i + 1] == UseBackendIfHasConnslots(BackendName(service, discover, kept[i]))
  {
    forall i | 0 <= i < |kept| {
      RouteAt(service, discover, kept, i);
    }
  }

  /** The routing lines of a service's frontend. */
  function Acls(service: string, discover: string, advertise: seq<string>, proxiedThrough: Option<string>,
                healthcheckUri: string, locs: seq<string>): seq<Directive>
    requires discover in locs && AllKnown(advertise, locs)
  {
    ProxyAcls(service, proxiedThrough, healthcheckUri) + Routes(service, discover, Kept(locs, discover, advertise))
  }

  /** `generate_acls_for_service`: the proxied-through block, then a pair of
      lines for each advertise type that does not downcast. */
  method GenerateAcls(service: string, discover: string, advertise: seq<string>,
                      proxiedThrough: Option<string>, healthcheckUri: string, locs: seq<string>)
    returns (acls: seq<Directive>)
    requires discover in locs && AllKnown(advertise, locs)
    ensures acls == Acls(service, discover, advertise, proxiedThrough, healthcheckUri, locs)
  {
    var proxy := ProxyAcls(service, proxiedThrough, healthcheckUri);
    acls := proxy;
    ghost var kept: seq<string> := [];
    for i := 0 to |advertise|
      invariant AllKnown(advertise[..i], locs) && kept == Kept(locs, discover, advertise[..i])
      invariant acls == proxy + Routes(service, discover, kept)
    {
      var t := advertise[i];
      KeptNext(locs, discover, advertise, i);
      if Downcasts(locs, discover, t) {
        continue;
      }
      var backend := BackendName(service, discover, t);
      RoutesSnoc(service, discover, proxy, kept, t);
      acls := acls + RoutePair(backend);
      kept := kept + [t];
    }
    assert advertise[..|advertise|] == advertise;
  }

  /** One more advertise type adds itself to the kept ones unless it
      downcasts. */
  lemma KeptNext(locs: seq<string>, discover: string, advertise: seq<string>, i: nat)
    requires discover in locs && AllKnown(advertise, locs) && i < |advertise|
    ensures advertise[i] in locs && AllKnown(advertise[..i], locs) && AllKnown(advertise[..i + 1], locs)
    ensures Kept(locs, discover, advertise[..i + 1])
         == if Downcasts(locs, discover, advertise[i]) then Kept(locs, discover, advertise[..i])
            else Kept(locs, discover, advertise[..i]) + [advertise[i]]
  {
    assert forall j :: 0 <= j <= i ==> advertise[..i + 1][j] == advertise[j];
    assert advertise[..i + 1][..i] == advertise[..i];
  }

  /** Extending the lines with one kept type's pair routes that type too. */
  lemma RoutesSnoc(service: string, discover: string, prefix: seq<Directive>, kept: seq<string>, t: string)
    ensures prefix + Routes(service, discover, kept) + RoutePair(BackendName(service, discover, t))
         == prefix + Routes(service, discover, kept + [t])
  {
    assert (kept + [t])[..|kept|] == kept;
    var r, p := Routes(service, discover, kept), RoutePair(BackendName(service, discover, t));
    assert Routes(service, discover, kept + [t]) == r + p;
    assert prefix + r + p == prefix + (r + p);
  }

  /** When the service is proxied through another, the proxy block opens the
      list, its `use_backend` ahead of every route to the service's own
      backends; the routes follow two lines per kept advertise type. */
  lemma ProxyBlockFirst(service: string, discover: string, advertise: seq<string>, proxiedThrough: Option<string>,
                        healthcheckUri: string, locs: seq<string>)
    requires discover in locs && AllKnown(advertise, locs)
    ensures var r := Acls(service, discover, advertise, proxiedThrough, healthcheckUri, locs);
      var k := |Kept(locs, discover, advertise)|;
      (Truthy(proxiedThrough) ==> (|r| == 5 + 2 * k && r[3] == UseBackendIfProxied(proxiedThrough.value)
        && r[4] == ReqaddDestination(service)
        && (forall i :: 0 <= i < |r| && r[i].UseBackendIfHasConnslots? ==> 3 < i)))
      && (!Truthy(proxiedThrough) ==> |r| == 2 * k && (forall i :: 0 <= i < |r| ==> !r[i].UseBackendIfProxied?))
  {
    var kept := Kept(locs, discover, advertise);
    RouteKinds(service, discover, kept);
    if Truthy(proxiedThrough) {
      ProxyBlockAhead(service, proxiedThrough.value, healthcheckUri, Routes(service, discover, kept));
    } else {
      NoProxyBlock(service, proxiedThrough, healthcheckUri, Routes(service, discover, kept));
    }
  }

  lemma ProxyBlockAhead(service: string, proxy: string, healthcheckUri: string, routes: seq<Directive>)
    requires proxy != ""
    requires forall i :: 0 <= i < |routes| ==> routes[i].AclHasConnslots? || routes[i].UseBackendIfHasConnslots?
    ensures var r := ProxyAcls(service, Some(proxy), healthcheckUri) + routes;
      |r| == 5 + |routes| && r[3] == UseBackendIfProxied(proxy) && r[4] == ReqaddDestination(service)
      && (forall i :: 0 <= i < |r| && r[i].UseBackendIfHasConnslots? ==> 3 < i)
  {
    var p := ProxyAcls(service, Some(proxy), healthcheckUri);
    var r := p + routes;
    forall i | 0 <= i < |r| && r[i].UseBackendIfHasConnslots? ensures 3 < i {
      if i < 5 {
        assert r[i] == p[i];
      }
    }
  }

  lemma NoProxyBlock(service: string, proxiedThrough: Option<string>, healthcheckUri: string, routes: seq<Directive>)
    requires !Truthy(proxiedThrough)
    requires forall i :: 0 <= i < |routes| ==> routes[i].AclHasConnslots? || routes[i].UseBackendIfHasConnslots?
    ensures var r := ProxyAcls(service, proxiedThrough, healthcheckUri) + routes;
      r == routes && forall i :: 0 <= i < |r| ==> !r[i].UseBackendIfProxied?
  {
    assert ProxyAcls(service, proxiedThrough, healthcheckUri) == [];
  }

  lemma RouteKinds(service: string, discover: string, kept: seq<string>)
    ensures forall i :: 0 <= i < |Routes(service, discover, kept)| ==>
      Routes(service, discover, kept)[i].AclHasConnslots? || Routes(service, discover, kept)[i].UseBackendIfHasConnslots?
  {
    var r := Routes(service, discover, kept);
    forall i | 0 <= i < |r| ensures r[i].AclHasConnslots? || r[i].UseBackendIfHasConnslots? {
      RouteAt(service, discover, kept, i / 2);
      assert i == 2 * (i / 2) || i == 2 * (i / 2) + 1;
    }
  }

  lemma PrefixDeepestFirst(s: seq<string>, n: nat, locs: seq<string>)
    requires n <= |s| && AllKnown(s, locs) && DeepestFirst(s, locs)
    ensures AllKnown(s[..n], locs) && DeepestFirst(s[..n], locs)
  {
    assert forall i :: 0 <= i < n ==> s[..n][i] == s[i];
  }

  /** With the advertise types most specific first and the discover type among
      them, the first route goes to the service's own backend: the types
      before the discover type are more specific and are skipped. */
  lemma {:induction false} OwnBackendFirst(locs: seq<string>, discover: string, advertise: seq<string>)
    requires discover in locs && AllKnown(advertise, locs) && DeepestFirst(advertise, locs)
    requires discover in advertise
    ensures |Kept(locs, discover, advertise)| > 0 && Kept(locs, discover, advertise)[0] == discover
    decreases |advertise|
  {
    var n := |advertise| - 1;
    var front := advertise[..n];
    assert advertise == front + [advertise[n]];
    PrefixDeepestFirst(advertise, n, locs);
    if discover in front {
      OwnBackendFirst(locs, discover, front);
    } else {
      assert advertise[n] == discover;
      forall i | 0 <= i < n ensures Depth(locs, front[i]) > Depth(locs, discover) {
        assert Depth(locs, advertise[i]) >= Depth(locs, advertise[n]) && front[i] != discover;
      }
      KeptNone(locs, discover, front);
    }
  }

  /** So the own backend's pair is the first route of the list. */
  lemma OwnRouteFirst(service: string, discover: string, advertise: seq<string>, proxiedThrough: Option<string>,
                      healthcheckUri: string, locs: seq<string>)
    requires discover in locs && AllKnown(advertise, locs) && DeepestFirst(advertise, locs)
    requires discover in advertise
    ensures var r := Acls(service, discover, advertise, proxiedThrough, healthcheckUri, locs);
      var p := |ProxyAcls(service, proxiedThrough, healthcheckUri)|;
      p + 1 < |r| && r[p] == AclHasConnslots(service) && r[p + 1] == UseBackendIfHasConnslots(service)
  {
    var kept := Kept(locs, discover, advertise);
    OwnBackendFirst(locs, discover, advertise);
    var routes := Routes(service, discover, kept);
    RoutesAt(service, discover, kept);
    assert routes[0] == AclHasConnslots(service) && routes[1] == UseBackendIfHasConnslots(service);
  }
}
