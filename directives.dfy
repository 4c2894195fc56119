/** The HAProxy section of one service watcher: `_generate_haproxy_for_watcher`
    (configure_synapse.py:542-674) and `_generate_captured_request_headers`
    (configure_synapse.py:532-539). */
module Directives {
  import opened Wrappers
  import opened Text
  import opened Service
  import opened Document
  import opened ToolsConfig

  // ---------------------------------------------------------------------------
  // Timeouts (configure_synapse.py:548-551, 570-574, 658-662)
  // ---------------------------------------------------------------------------

  /** Python 2's `max(a, b)` on two values that may be `None`: `None` compares
      below every number. */
  function MaxOrNone(a: Option<int>, b: Option<int>): (r: Option<int>)
    ensures r.Some? <==> a.Some? || b.Some?
    ensures r == a || r == b
    ensures r.Some? ==> (a.Some? ==> a.value <= r.value) && (b.Some? ==> b.value <= r.value)
  {
    match (a, b)
    case (None, _) => b
    case (_, None) => a
    case (Some(x), Some(y)) => if x >= y then a else b
  }

  /** `default_timeout`: the larger of the two timeouts the service gives. */
  function DefaultTimeout(info: ServiceInfo): Option<int> {
    MaxOrNone(info.timeoutClientMs.Get(), info.timeoutServerMs.Get())
  }

  /** `service_info.get('timeout_client_ms', default_timeout)` */
  function ClientTimeout(info: ServiceInfo): Option<int> {
    info.timeoutClientMs.GetWithDefault(DefaultTimeout(info))
  }

  /** `service_info.get('timeout_server_ms', default_timeout)` */
  function ServerTimeout(info: ServiceInfo): Option<int> {
    info.timeoutServerMs.GetWithDefault(DefaultTimeout(info))
  }

  /** How the two timeouts resolve: a timeout the service gives is used as is;
      when only one is given, the other side takes the same value; when neither
      is given, there is none; an explicit `None` leaves that side without one. */
  lemma TimeoutResolution(info: ServiceInfo)
    ensures info.timeoutClientMs.Given? ==> ClientTimeout(info) == Some(info.timeoutClientMs.value)
    ensures info.timeoutServerMs.Given? ==> ServerTimeout(info) == Some(info.timeoutServerMs.value)
    ensures info.timeoutClientMs.Given? && info.timeoutServerMs.Missing?
        ==> ServerTimeout(info) == Some(info.timeoutClientMs.value)
    ensures info.timeoutServerMs.Given? && info.timeoutClientMs.Missing?
        ==> ClientTimeout(info) == Some(info.timeoutServerMs.value)
    ensures info.timeoutClientMs.Missing? && info.timeoutServerMs.Missing?
        ==> ClientTimeout(info).None? && ServerTimeout(info).None?
    ensures info.timeoutClientMs.Null? ==> ClientTimeout(info).None?
    ensures info.timeoutServerMs.Null? ==> ServerTimeout(info).None?
  {
  }

  // ---------------------------------------------------------------------------
  // Captured request headers (configure_synapse.py:532-539)
  // ---------------------------------------------------------------------------

  /** One `Name[:len]` item of `haproxy_captured_req_headers`: stripped, split at
      the first colon, with length 64 when none (or an empty one) is given. */
  function CaptureOf(item: string): Directive {
    var p := Partition(Strip(item), ':');
    CaptureRequestHeader(p.0, if p.2 == "" then "64" else p.2)
  }

  /** One capture line per comma-separated item, in order. */
  function CapturedHeaders(list: string): (r: seq<Directive>)
    ensures |r| == |Split(list, ',')|
    ensures forall i :: 0 <= i < |r| ==> r[i] == CaptureOf(Split(list, ',')[i])
  {
    var items := Split(list, ',');
    seq(|items|, i requires 0 <= i < |items| => CaptureOf(items[i]))
  }

  /** A header name or length as written in the list: no separators, no spaces. */
  predicate PlainWord(w: string) {
    forall i :: 0 <= i < |w| ==> w[i] != ',' && w[i] != ':' && !IsSpace(w[i])
  }

  /** How one header is written in the list: `Name`, or `Name:len`. */
  function CaptureItem(h: (string, string)): string {
    if h.1 == "" then h.0 else h.0 + ":" + h.1
  }

  /** Writing a list of header names (with optional lengths) the way the
      configuration does and reading it back gives one capture line per header,
      with its length or 64. */
  lemma CapturedHeadersRoundTrip(hs: seq<(string, string)>)
    requires |hs| >= 1
    requires forall i :: 0 <= i < |hs| ==> PlainWord(hs[i].0) && PlainWord(hs[i].1)
    ensures var items := seq(|hs|, i requires 0 <= i < |hs| => CaptureItem(hs[i]));
      var r := CapturedHeaders(Join(items, ','));
      |r| == |hs| &&
      forall i :: 0 <= i < |hs| ==> r[i] == CaptureRequestHeader(hs[i].0, if hs[i].1 == "" then "64" else hs[i].1)
  {
    var items := seq(|hs|, i requires 0 <= i < |hs| => CaptureItem(hs[i]));
    forall i | 0 <= i < |hs| ensures ',' !in items[i] {
      CaptureItemPlain(hs[i]);
    }
    SplitJoin(items, ',');
    forall i | 0 <= i < |hs|
      ensures CaptureOf(items[i]) == CaptureRequestHeader(hs[i].0, if hs[i].1 == "" then "64" else hs[i].1)
    {
      CaptureItemRead(hs[i]);
    }
  }

  lemma CaptureItemPlain(h: (string, string))
    requires PlainWord(h.0) && PlainWord(h.1)
    ensures ',' !in CaptureItem(h)
    ensures forall i :: 0 <= i < |CaptureItem(h)| ==> !IsSpace(CaptureItem(h)[i])
  {
  }

  lemma CaptureItemRead(h: (string, string))
    requires PlainWord(h.0) && PlainWord(h.1)
    ensures CaptureOf(CaptureItem(h)) == CaptureRequestHeader(h.0, if h.1 == "" then "64" else h.1)
  {
    var item := CaptureItem(h);
    CaptureItemPlain(h);
    StripPlain(item);
    assert ':' !in h.0;
    if h.1 == "" {
      PartitionAbsent(h.0, ':');
    } else {
      PartitionAt(h.0, h.1, ':');
    }
  }

  // ---------------------------------------------------------------------------
  // The directive lists, as specifications
  // ---------------------------------------------------------------------------

  predicate HttpMode(info: ServiceInfo) { Mode(info) == "http" }
  predicate TcpMode(info: ServiceInfo) { Mode(info) == "tcp" }

  /** `server_options` */
  function ServerOptionsFor(s: Settings, info: ServiceInfo): ServerOptions {
    ServerOptions(HttpMode(info), s.hacheckPort, s.maxconnPerServer, s.maxqueuePerServer)
  }

  function ClientTimeoutLines(info: ServiceInfo): seq<Directive> {
    if ClientTimeout(info).Some? then [TimeoutClient(ClientTimeout(info).value)] else []
  }

  function LogLines(s: Settings, info: ServiceInfo): seq<Directive> {
    if HttpMode(info) then CapturedHeaders(s.capturedReqHeaders) + [OptionHttplog]
    else if TcpMode(info) then [NoOptionAcceptInvalidHttpRequest, OptionTcplog]
    else []
  }

  function TcpLines(info: ServiceInfo): seq<Directive> {
    if TcpMode(info) then [ModeTcp] else []
  }

  /** The frontend directives of the watcher, before binds, chaos and ACLs. */
  function Frontend(s: Settings, info: ServiceInfo): seq<Directive> {
    ClientTimeoutLines(info) + LogLines(s, info) + TcpLines(info)
  }

  /** The two balancing algorithms the generator passes on. */
  predicate KnownBalance(alg: string) {
    alg == "leastconn" || alg == "roundrobin"
  }

  function BalanceLines(info: ServiceInfo): seq<Directive> {
    if info.balance.Some? && KnownBalance(info.balance.value) then [Balance(info.balance.value)] else []
  }

  function KeepaliveLines(info: ServiceInfo): seq<Directive> {
    if info.keepalive && HttpMode(info) then [NoOptionForceclose, OptionHttpKeepAlive] else []
  }

  function ProxyLines(name: string, info: ServiceInfo, isProxy: bool): seq<Directive> {
    if isProxy then [AclIsStatusRequest(HealthcheckUri(info)), ReqaddSource(name)] else []
  }

  /** One `reqidel` per extra header, in order. */
  function Reqidels(hs: seq<(string, string)>): (r: seq<Directive>)
    ensures |r| == |hs|
    ensures forall i :: 0 <= i < |hs| ==> r[i] == Reqidel(hs[i].0)
    decreases |hs|
  {
    if hs == [] then [] else Reqidels(hs[..|hs| - 1]) + [Reqidel(hs[|hs| - 1].0)]
  }

  /** One `reqadd` per extra header, in order. */
  function Reqadds(hs: seq<(string, string)>): (r: seq<Directive>)
    ensures |r| == |hs|
    ensures forall i :: 0 <= i < |hs| ==> r[i] == Reqadd(hs[i].0, hs[i].1)
    decreases |hs|
  {
    if hs == [] then [] else Reqadds(hs[..|hs| - 1]) + [Reqadd(hs[|hs| - 1].0, hs[|hs| - 1].1)]
  }

  function HealthCheckLines(name: string, info: ServiceInfo): seq<Directive> {
    [HttpCheck(Mode(info), name, HealthcheckUri(info), info.extraHealthcheckHeaders), HttpCheckSendState]
  }

  function RetriesLines(info: ServiceInfo): seq<Directive> {
    if info.retries.Some? then [Retries(info.retries.value)] else []
  }

  function AllredispLines(s: Settings, info: ServiceInfo): seq<Directive> {
    if s.respectAllredisp && info.allredisp then [OptionAllredisp] else []
  }

  function ConnectLines(info: ServiceInfo): seq<Directive> {
    if info.timeoutConnectMs.Some? then [TimeoutConnect(info.timeoutConnectMs.value)] else []
  }

  function ServerTimeoutLines(info: ServiceInfo): seq<Directive> {
    if ServerTimeout(info).Some? then [TimeoutServer(ServerTimeout(info).value)] else []
  }

  /** The part of the backend before the extra headers. */
  function BackendHead(name: string, info: ServiceInfo, isProxy: bool): seq<Directive> {
    BalanceLines(info) + KeepaliveLines(info) + TcpLines(info) + ProxyLines(name, info, isProxy)
  }

  /** The part of the backend after the extra headers. */
  function BackendTail(s: Settings, name: string, info: ServiceInfo): seq<Directive> {
    HealthCheckLines(name, info) + RetriesLines(info) + AllredispLines(s, info)
      + ConnectLines(info) + ServerTimeoutLines(info)
  }

  /** The backend directives of the watcher. */
  function Backend(s: Settings, name: string, info: ServiceInfo, isProxy: bool): seq<Directive> {
    BackendHead(name, info, isProxy) + Reqidels(info.extraHeaders) + Reqadds(info.extraHeaders)
      + BackendTail(s, name, info)
  }

  /** The generated HAProxy section: no port, bind address or backend name yet,
      and an empty `listen`. */
  function HaproxyFor(s: Settings, name: string, info: ServiceInfo, isProxy: bool): (r: HaproxySection)
    ensures r.HaproxyWatcher? && r.frontend.Some?
    ensures r.listen == []
    ensures r.port.Missing? && r.bindAddress.None? && r.backendName.None?
    ensures r.serverOptions.layer7 <==> HttpMode(info)
  {
    HaproxyWatcher(ServerOptionsFor(s, info), Some(Frontend(s, info)), Backend(s, name, info, isProxy), [],
                   Missing, None, None)
  }

  /** The options appended to each server line: the hacheck port, layer 7
      observation exactly for HTTP services (layer 4 for every other mode), and
      the per-server connection and queue limits from the settings. */
  lemma ServerOptionsText(s: Settings, name: string, info: ServiceInfo, isProxy: bool)
    ensures var o := HaproxyFor(s, name, info, isProxy).serverOptions;
      && o.checkPort == s.hacheckPort && o.maxconn == s.maxconnPerServer && o.maxqueue == s.maxqueuePerServer
      && RenderServerOptions(o)
         == "check port " + IntToString(s.hacheckPort) + " observe " + (if HttpMode(info) then "layer7" else "layer4")
            + " maxconn " + IntToString(s.maxconnPerServer) + " maxqueue " + IntToString(s.maxqueuePerServer)
  {
  }

  // ---------------------------------------------------------------------------
  // `_generate_haproxy_for_watcher`, step by step
  // ---------------------------------------------------------------------------

  /** `for header, value in extra_headers.iteritems(): backend_options.append('reqidel ^%s:.*' % header)` */
  method AppendHeaderDeletions(backend: seq<Directive>, hs: seq<(string, string)>) returns (r: seq<Directive>)
    ensures r == backend + Reqidels(hs)
  {
    r := backend;
    for i := 0 to |hs|
      invariant r == backend + Reqidels(hs[..i])
    {
      assert hs[..i + 1][..i] == hs[..i];
      r := r + [Reqidel(hs[i].0)];
    }
    assert hs[..|hs|] == hs;
  }

  /** `for header, value in extra_headers.iteritems(): backend_options.append('reqadd %s:\ %s' % (header, value))` */
  method AppendHeaderAdditions(backend: seq<Directive>, hs: seq<(string, string)>) returns (r: seq<Directive>)
    ensures r == backend + Reqadds(hs)
  {
    r := backend;
    for i := 0 to |hs|
      invariant r == backend + Reqadds(hs[..i])
    {
      assert hs[..i + 1][..i] == hs[..i];
      r := r + [Reqadd(hs[i].0, hs[i].1)];
    }
    assert hs[..|hs|] == hs;
  }

  /** The frontend list, appended to as the Python code does (the `mode tcp`
      line is appended to both lists at configure_synapse.py:598-601; the
      order between the two lists does not matter). */
  method BuildFrontend(s: Settings, info: ServiceInfo) returns (frontend: seq<Directive>)
    ensures frontend == Frontend(s, info)
  {
    var http, tcp := HttpMode(info), TcpMode(info);
    frontend := [];
    var timeoutClient := ClientTimeout(info);
    if timeoutClient.Some? {
      frontend := frontend + [TimeoutClient(timeoutClient.value)];
    }
    ghost var timeouts := frontend;
    if http {
      frontend := frontend + CapturedHeaders(s.capturedReqHeaders);
      frontend := frontend + [OptionHttplog];
      Regroup3(timeouts, CapturedHeaders(s.capturedReqHeaders), [OptionHttplog]);
    } else if tcp {
      frontend := frontend + [NoOptionAcceptInvalidHttpRequest];
      frontend := frontend + [OptionTcplog];
    }
    assert frontend == timeouts + LogLines(s, info);
    if tcp {
      frontend := frontend + [ModeTcp];
    }
    assert frontend == timeouts + LogLines(s, info) + TcpLines(info);
    assert timeouts == ClientTimeoutLines(info);
  }

  /** The backend list up to the extra headers. */
  method BuildBackendHead(name: string, info: ServiceInfo, isProxy: bool) returns (backend: seq<Directive>)
    ensures backend == BackendHead(name, info, isProxy)
  {
    var http, tcp := HttpMode(info), TcpMode(info);
    backend := [];
    if info.balance.Some? && (info.balance.value == "leastconn" || info.balance.value == "roundrobin") {
      backend := backend + [Balance(info.balance.value)];
    }
    ghost var b1 := backend;
    if info.keepalive && http {
      backend := backend + [NoOptionForceclose, OptionHttpKeepAlive];
    }
    ghost var b2 := backend;
    assert b2 == b1 + KeepaliveLines(info);
    if tcp {
      backend := backend + [ModeTcp];
    }
    ghost var b3 := backend;
    assert b3 == b2 + TcpLines(info);
    if isProxy {
      backend := backend + [AclIsStatusRequest(HealthcheckUri(info)), ReqaddSource(name)];
    }
    assert backend == b3 + ProxyLines(name, info, isProxy);
  }

  /** The backend list from the health check on. */
  method AppendBackendTail(backend: seq<Directive>, s: Settings, name: string, info: ServiceInfo)
    returns (r: seq<Directive>)
    ensures r == backend + BackendTail(s, name, info)
  {
    r := backend + [HttpCheck(Mode(info), name, HealthcheckUri(info), info.extraHealthcheckHeaders)];
    r := r + [HttpCheckSendState];
    ghost var r1 := r;
    assert r1 == backend + HealthCheckLines(name, info);
    if info.retries.Some? {
      r := r + [Retries(info.retries.value)];
    }
    ghost var r2 := r;
    assert r2 == r1 + RetriesLines(info);
    if s.respectAllredisp && info.allredisp {
      r := r + [OptionAllredisp];
    }
    ghost var r3 := r;
    assert r3 == r2 + AllredispLines(s, info);
    if info.timeoutConnectMs.Some? {
      r := r + [TimeoutConnect(info.timeoutConnectMs.value)];
    }
    ghost var r4 := r;
    assert r4 == r3 + ConnectLines(info);
    var timeoutServer := ServerTimeout(info);
    if timeoutServer.Some? {
      r := r + [TimeoutServer(timeoutServer.value)];
    }
    assert r == r4 + ServerTimeoutLines(info);
    Regroup5(backend, HealthCheckLines(name, info), RetriesLines(info), AllredispLines(s, info),
             ConnectLines(info), ServerTimeoutLines(info));
  }

  /** `_generate_haproxy_for_watcher`: builds the section by successive appends. */
  method GenerateHaproxyForWatcher(s: Settings, name: string, info: ServiceInfo, isProxy: bool)
    returns (r: HaproxySection)
    ensures r == HaproxyFor(s, name, info, isProxy)
  {
    var serverOptions := ServerOptions(HttpMode(info), s.hacheckPort, s.maxconnPerServer, s.maxqueuePerServer);
    var frontend := BuildFrontend(s, info);
    var backend := BuildBackendHead(name, info, isProxy);
    backend := AppendHeaderDeletions(backend, info.extraHeaders);
    backend := AppendHeaderAdditions(backend, info.extraHeaders);
    backend := AppendBackendTail(backend, s, name, info);
    r := HaproxyWatcher(serverOptions, Some(frontend), backend, [], Missing, None, None);
  }

  // ---------------------------------------------------------------------------
  // What the frontend holds
  // ---------------------------------------------------------------------------

  lemma ModesDistinct(info: ServiceInfo)
    ensures !(HttpMode(info) && TcpMode(info))
  {
  }

  /** The client timeout line is there exactly when a client timeout resolves,
      with that value. */
  lemma FrontendTimeout(s: Settings, info: ServiceInfo)
    ensures forall ms :: TimeoutClient(ms) in Frontend(s, info) <==> ClientTimeout(info) == Some(ms)
  {
    forall ms ensures TimeoutClient(ms) in Frontend(s, info) <==> ClientTimeout(info) == Some(ms) {
      InFrontend(s, info, TimeoutClient(ms));
      LogLinesNoTimeout(s, info, ms);
    }
  }

  /** A line is in the frontend exactly when it is in one of its three parts. */
  lemma InFrontend(s: Settings, info: ServiceInfo, x: Directive)
    ensures x in Frontend(s, info) <==> x in ClientTimeoutLines(info) || x in LogLines(s, info) || x in TcpLines(info)
  {
    var t, l, m := ClientTimeoutLines(info), LogLines(s, info), TcpLines(info);
    assert x in t + l + m <==> x in t + l || x in m;
  }

  /** The log lines are captures, the log format or the refusal of invalid
      requests, each one in its own mode. */
  lemma LogLinesKinds(s: Settings, info: ServiceInfo)
    ensures forall d :: d in LogLines(s, info) ==>
      (d.CaptureRequestHeader? && HttpMode(info)) || (d == OptionHttplog && HttpMode(info))
      || (d == NoOptionAcceptInvalidHttpRequest && TcpMode(info)) || (d == OptionTcplog && TcpMode(info))
    ensures HttpMode(info) ==> OptionHttplog in LogLines(s, info)
    ensures TcpMode(info) ==> NoOptionAcceptInvalidHttpRequest in LogLines(s, info) && OptionTcplog in LogLines(s, info)
  {
    if HttpMode(info) {
      CapturedKinds(s.capturedReqHeaders);
      HttpLogKinds(CapturedHeaders(s.capturedReqHeaders));
    } else if TcpMode(info) {
      assert LogLines(s, info) == [NoOptionAcceptInvalidHttpRequest, OptionTcplog];
    }
  }

  lemma HttpLogKinds(c: seq<Directive>)
    requires forall d :: d in c ==> d.CaptureRequestHeader?
    ensures forall d :: d in c + [OptionHttplog] ==> d.CaptureRequestHeader? || d == OptionHttplog
    ensures OptionHttplog in c + [OptionHttplog]
  {
    assert (c + [OptionHttplog])[|c|] == OptionHttplog;
  }

  lemma LogLinesNoTimeout(s: Settings, info: ServiceInfo, ms: int)
    ensures TimeoutClient(ms) !in LogLines(s, info)
  {
    LogLinesKinds(s, info);
  }

  lemma CapturedKinds(list: string)
    ensures forall d :: d in CapturedHeaders(list) ==> d.CaptureRequestHeader?
  {
  }

  /** HTTP services log with `option httplog`, other services do not. */
  lemma FrontendHttpLog(s: Settings, info: ServiceInfo)
    ensures OptionHttplog in Frontend(s, info) <==> HttpMode(info)
  {
    InFrontend(s, info, OptionHttplog);
    LogLinesKinds(s, info);
  }

  /** TCP services refuse invalid requests, log with `option tcplog` and switch
      to `mode tcp`; other services do none of these. */
  lemma FrontendTcp(s: Settings, info: ServiceInfo)
    ensures OptionTcplog in Frontend(s, info) <==> TcpMode(info)
    ensures NoOptionAcceptInvalidHttpRequest in Frontend(s, info) <==> TcpMode(info)
    ensures ModeTcp in Frontend(s, info) <==> TcpMode(info)
  {
    ModesDistinct(info);
    InFrontend(s, info, OptionTcplog);
    InFrontend(s, info, NoOptionAcceptInvalidHttpRequest);
    InFrontend(s, info, ModeTcp);
    LogLinesKinds(s, info);
  }

  /** Request headers are captured only by HTTP services, exactly those listed
      in the tools configuration. */
  lemma FrontendCaptures(s: Settings, info: ServiceInfo)
    ensures forall d: Directive :: d.CaptureRequestHeader? ==>
      (d in Frontend(s, info) <==> HttpMode(info) && d in CapturedHeaders(s.capturedReqHeaders))
  {
    var c := CapturedHeaders(s.capturedReqHeaders);
    forall d: Directive | d.CaptureRequestHeader?
      ensures d in Frontend(s, info) <==> HttpMode(info) && d in c
    {
      InFrontend(s, info, d);
      LogLinesKinds(s, info);
      if HttpMode(info) {
        assert LogLines(s, info) == c + [OptionHttplog];
      }
    }
  }

  // ---------------------------------------------------------------------------
  // What the backend holds
  // ---------------------------------------------------------------------------

  /** The kinds of line the backend emits before the extra headers ... */
  predicate HeadKind(d: Directive) {
    d.Balance? || d.NoOptionForceclose? || d.OptionHttpKeepAlive? || d.ModeTcp?
    || d.AclIsStatusRequest? || d.ReqaddSource?
  }

  /** ... and after them. */
  predicate TailKind(d: Directive) {
    d.HttpCheck? || d.HttpCheckSendState? || d.Retries? || d.OptionAllredisp?
    || d.TimeoutConnect? || d.TimeoutServer?
  }

  /** The four parts of the backend and the kinds of line each holds. */
  lemma BackendParts(s: Settings, name: string, info: ServiceInfo, isProxy: bool)
    ensures Backend(s, name, info, isProxy)
      == BackendHead(name, info, isProxy) + Reqidels(info.extraHeaders)
       + Reqadds(info.extraHeaders) + BackendTail(s, name, info)
    ensures forall d :: d in Reqidels(info.extraHeaders) ==> d.Reqidel?
    ensures forall d :: d in Reqadds(info.extraHeaders) ==> d.Reqadd?
    ensures forall d :: d in BackendHead(name, info, isProxy) ==> HeadKind(d)
    ensures forall d :: d in BackendTail(s, name, info) ==> TailKind(d)
  {
    HeadKinds(name, info, isProxy);
    TailKinds(s, name, info);
  }

  lemma HeadKinds(name: string, info: ServiceInfo, isProxy: bool)
    ensures forall d :: d in BackendHead(name, info, isProxy) ==> HeadKind(d)
  {
    var b, k, t, p := BalanceLines(info), KeepaliveLines(info), TcpLines(info), ProxyLines(name, info, isProxy);
    assert forall d :: d in b ==> d.Balance?;
    assert forall d :: d in k ==> d.NoOptionForceclose? || d.OptionHttpKeepAlive?;
    assert forall d :: d in t ==> d.ModeTcp?;
    assert forall d :: d in p ==> d.AclIsStatusRequest? || d.ReqaddSource?;
  }

  lemma TailKinds(s: Settings, name: string, info: ServiceInfo)
    ensures forall d :: d in BackendTail(s, name, info) ==> TailKind(d)
  {
    var h, r, a := HealthCheckLines(name, info), RetriesLines(info), AllredispLines(s, info);
    var c, st := ConnectLines(info), ServerTimeoutLines(info);
    assert forall d :: d in h ==> d.HttpCheck? || d.HttpCheckSendState?;
    assert forall d :: d in r ==> d.Retries?;
    assert forall d :: d in a ==> d.OptionAllredisp?;
    assert forall d :: d in c ==> d.TimeoutConnect?;
    assert forall d :: d in st ==> d.TimeoutServer?;
  }

  /** A line of a kind the head emits is in the backend exactly when it is in
      the head. */
  lemma InBackendHead(s: Settings, name: string, info: ServiceInfo, isProxy: bool, x: Directive)
    requires HeadKind(x)
    ensures x in Backend(s, name, info, isProxy) <==> x in BackendHead(name, info, isProxy)
  {
    BackendParts(s, name, info, isProxy);
    assert x !in Reqidels(info.extraHeaders) && x !in Reqadds(info.extraHeaders);
    assert x !in BackendTail(s, name, info);
  }

  /** A line of a kind the tail emits is in the backend exactly when it is in
      the tail. */
  lemma InBackendTail(s: Settings, name: string, info: ServiceInfo, isProxy: bool, x: Directive)
    requires TailKind(x)
    ensures x in Backend(s, name, info, isProxy) <==> x in BackendTail(s, name, info)
  {
    BackendParts(s, name, info, isProxy);
    assert x !in Reqidels(info.extraHeaders) && x !in Reqadds(info.extraHeaders);
    assert x !in BackendHead(name, info, isProxy);
  }

  /** A `balance` line only for the two algorithms the code accepts. */
  lemma BackendBalance(s: Settings, name: string, info: ServiceInfo, isProxy: bool)
    ensures forall alg :: (Balance(alg) in Backend(s, name, info, isProxy)
      <==> info.balance == Some(alg) && KnownBalance(alg))
  {
    forall alg ensures Balance(alg) in Backend(s, name, info, isProxy) <==> info.balance == Some(alg) && KnownBalance(alg) {
      InBackendHead(s, name, info, isProxy, Balance(alg));
      HeadBalance(name, info, isProxy, alg);
    }
  }

  lemma HeadBalance(name: string, info: ServiceInfo, isProxy: bool, alg: string)
    ensures Balance(alg) in BackendHead(name, info, isProxy) <==> info.balance == Some(alg) && KnownBalance(alg)
  {
    var b, k, t, p := BalanceLines(info), KeepaliveLines(info), TcpLines(info), ProxyLines(name, info, isProxy);
    assert Balance(alg) !in k && Balance(alg) !in t && Balance(alg) !in p;
  }

  /** Keep-alive only for HTTP services that ask for it. */
  lemma BackendKeepalive(s: Settings, name: string, info: ServiceInfo, isProxy: bool)
    ensures NoOptionForceclose in Backend(s, name, info, isProxy) <==> info.keepalive && HttpMode(info)
    ensures OptionHttpKeepAlive in Backend(s, name, info, isProxy) <==> info.keepalive && HttpMode(info)
  {
    InBackendHead(s, name, info, isProxy, NoOptionForceclose);
    InBackendHead(s, name, info, isProxy, OptionHttpKeepAlive);
    HeadKeepalive(name, info, isProxy, NoOptionForceclose);
    HeadKeepalive(name, info, isProxy, OptionHttpKeepAlive);
  }

  lemma HeadKeepalive(name: string, info: ServiceInfo, isProxy: bool, x: Directive)
    requires x == NoOptionForceclose || x == OptionHttpKeepAlive
    ensures x in BackendHead(name, info, isProxy) <==> info.keepalive && HttpMode(info)
  {
    var b, k, t, p := BalanceLines(info), KeepaliveLines(info), TcpLines(info), ProxyLines(name, info, isProxy);
    assert x !in b && x !in t && x !in p;
  }

  /** `mode tcp` only for TCP services. */
  lemma BackendTcp(s: Settings, name: string, info: ServiceInfo, isProxy: bool)
    ensures ModeTcp in Backend(s, name, info, isProxy) <==> TcpMode(info)
  {
    InBackendHead(s, name, info, isProxy, ModeTcp);
    var b, k, t, p := BalanceLines(info), KeepaliveLines(info), TcpLines(info), ProxyLines(name, info, isProxy);
    assert ModeTcp !in b && ModeTcp !in k && ModeTcp !in p;
  }

  /** A service other services are proxied through stamps its own name as the
      request source, except on status requests to its health-check URI. */
  lemma BackendProxyStamp(s: Settings, name: string, info: ServiceInfo, isProxy: bool)
    ensures forall n :: ReqaddSource(n) in Backend(s, name, info, isProxy) <==> isProxy && n == name
    ensures forall u :: (AclIsStatusRequest(u) in Backend(s, name, info, isProxy)
      <==> isProxy && u == HealthcheckUri(info))
  {
    forall n ensures ReqaddSource(n) in Backend(s, name, info, isProxy) <==> isProxy && n == name {
      InBackendHead(s, name, info, isProxy, ReqaddSource(n));
      HeadProxy(name, info, isProxy, ReqaddSource(n));
    }
    forall u ensures AclIsStatusRequest(u) in Backend(s, name, info, isProxy) <==> isProxy && u == HealthcheckUri(info) {
      InBackendHead(s, name, info, isProxy, AclIsStatusRequest(u));
      HeadProxy(name, info, isProxy, AclIsStatusRequest(u));
    }
  }

  lemma HeadProxy(name: string, info: ServiceInfo, isProxy: bool, x: Directive)
    requires x.ReqaddSource? || x.AclIsStatusRequest?
    ensures x in BackendHead(name, info, isProxy) <==> x in ProxyLines(name, info, isProxy)
  {
    var b, k, t, p := BalanceLines(info), KeepaliveLines(info), TcpLines(info), ProxyLines(name, info, isProxy);
    assert x !in b && x !in k && x !in t;
  }

  /** Every extra header is first deleted and then added with its value; no
      other header is touched. */
  lemma BackendExtraHeaders(s: Settings, name: string, info: ServiceInfo, isProxy: bool)
    ensures var b, hs := Backend(s, name, info, isProxy), info.extraHeaders;
      (forall h :: Reqidel(h) in b <==> exists i :: 0 <= i < |hs| && hs[i].0 == h) &&
      (forall h, v :: Reqadd(h, v) in b <==> (h, v) in hs)
  {
    var b, hs := Backend(s, name, info, isProxy), info.extraHeaders;
    forall h ensures Reqidel(h) in b <==> exists i :: 0 <= i < |hs| && hs[i].0 == h {
      InBackendMiddle(s, name, info, isProxy, Reqidel(h));
      ReqidelsHold(hs, h);
    }
    forall h, v ensures Reqadd(h, v) in b <==> (h, v) in hs {
      InBackendMiddle(s, name, info, isProxy, Reqadd(h, v));
      ReqaddsHold(hs, h, v);
    }
  }

  /** A header line is in the backend exactly when it is among the deletions or
      the additions. */
  lemma InBackendMiddle(s: Settings, name: string, info: ServiceInfo, isProxy: bool, x: Directive)
    requires x.Reqidel? || x.Reqadd?
    ensures x in Backend(s, name, info, isProxy)
      <==> (x in Reqidels(info.extraHeaders) && x.Reqidel?) || (x in Reqadds(info.extraHeaders) && x.Reqadd?)
  {
    BackendParts(s, name, info, isProxy);
    assert x !in BackendHead(name, info, isProxy) && x !in BackendTail(s, name, info);
  }

  lemma ReqidelsHold(hs: seq<(string, string)>, h: string)
    ensures Reqidel(h) in Reqidels(hs) <==> exists i :: 0 <= i < |hs| && hs[i].0 == h
  {
    if exists i :: 0 <= i < |hs| && hs[i].0 == h {
      var i :| 0 <= i < |hs| && hs[i].0 == h;
      assert Reqidels(hs)[i] == Reqidel(h);
    }
  }

  lemma ReqaddsHold(hs: seq<(string, string)>, h: string, v: string)
    ensures Reqadd(h, v) in Reqadds(hs) <==> (h, v) in hs
  {
    if (h, v) in hs {
      var i :| 0 <= i < |hs| && hs[i] == (h, v);
      assert Reqadds(hs)[i] == Reqadd(h, v);
    }
  }

  /** Every header deletion comes before every header addition, so a service's
      own value for a header replaces the client's. */
  lemma ReqidelsBeforeReqadds(s: Settings, name: string, info: ServiceInfo, isProxy: bool)
    ensures var b := Backend(s, name, info, isProxy);
      forall i, j :: 0 <= i < |b| && 0 <= j < |b| && b[i].Reqidel? && b[j].Reqadd? ==> i < j
  {
    BackendOrdered(s, name, info, isProxy);
    DeletionsFirst(Backend(s, name, info, isProxy));
  }

  /** In a ranked list, every header deletion comes before every addition. */
  lemma DeletionsFirst(ds: seq<Directive>)
    requires Ranked(ds)
    ensures forall i, j :: 0 <= i < |ds| && 0 <= j < |ds| && ds[i].Reqidel? && ds[j].Reqadd? ==> i < j
  {
    forall i, j | 0 <= i < |ds| && 0 <= j < |ds| && ds[i].Reqidel? && ds[j].Reqadd? ensures i < j {
      assert Rank(ds[i]) == 6 && Rank(ds[j]) == 7;
    }
  }

  /** There is exactly one health-check line, it checks this service at its
      health-check URI in its mode, and `http-check send-state` follows it
      immediately. */
  lemma HealthCheckThenSendState(s: Settings, name: string, info: ServiceInfo, isProxy: bool)
    ensures var b := Backend(s, name, info, isProxy);
      exists k :: 0 <= k < |b| - 1 && b[k].HttpCheck? && b[k + 1] == HttpCheckSendState
    ensures var b := Backend(s, name, info, isProxy);
      forall k :: 0 <= k < |b| && b[k].HttpCheck? ==>
        b[k] == HttpCheck(Mode(info), name, HealthcheckUri(info), info.extraHealthcheckHeaders)
        && k + 1 < |b| && b[k + 1] == HttpCheckSendState
    ensures var b := Backend(s, name, info, isProxy);
      forall k, l :: 0 <= k < |b| && 0 <= l < |b| && b[k].HttpCheck? && b[l].HttpCheck? ==> k == l
  {
    var head, ri, ra := BackendHead(name, info, isProxy), Reqidels(info.extraHeaders), Reqadds(info.extraHeaders);
    BackendParts(s, name, info, isProxy);
    NoCheckInHeaders(head, ri, ra);
    TailHealthCheck(s, name, info);
    OnlyCheckAfter(head + ri + ra, BackendTail(s, name, info),
      HttpCheck(Mode(info), name, HealthcheckUri(info), info.extraHealthcheckHeaders));
  }

  /** The head and the header lines hold no health check. */
  lemma NoCheckInHeaders(head: seq<Directive>, ri: seq<Directive>, ra: seq<Directive>)
    requires forall d :: d in head ==> HeadKind(d)
    requires forall d :: d in ri ==> d.Reqidel?
    requires forall d :: d in ra ==> d.Reqadd?
    ensures forall d :: d in head + ri + ra ==> !d.HttpCheck?
  {
  }

  /** A list with no health check before a tail that opens with one check and
      `send-state` and holds no other check. */
  lemma OnlyCheckAfter(pre: seq<Directive>, tail: seq<Directive>, hc: Directive)
    requires forall d :: d in pre ==> !d.HttpCheck?
    requires |tail| >= 2 && tail[0] == hc && tail[1] == HttpCheckSendState
    requires forall k :: 1 <= k < |tail| ==> !tail[k].HttpCheck?
    ensures var b := pre + tail; 0 <= |pre| < |b| - 1 && b[|pre|] == hc && b[|pre| + 1] == HttpCheckSendState
    ensures var b := pre + tail;
      forall k :: 0 <= k < |b| && b[k].HttpCheck? ==> b[k] == hc && k + 1 < |b| && b[k + 1] == HttpCheckSendState
    ensures var b := pre + tail; forall k :: 0 <= k < |b| && b[k].HttpCheck? ==> k == |pre|
  {
    var b := pre + tail;
    forall k | 0 <= k < |pre| ensures !b[k].HttpCheck? {
      assert b[k] == pre[k] && pre[k] in pre;
    }
    forall k | |pre| < k < |b| ensures !b[k].HttpCheck? {
      assert b[k] == tail[k - |pre|];
    }
  }

  /** The tail opens with the health check and `send-state`, and holds no other
      health check. */
  lemma TailHealthCheck(s: Settings, name: string, info: ServiceInfo)
    ensures var t := BackendTail(s, name, info);
      |t| >= 2 && t[0] == HttpCheck(Mode(info), name, HealthcheckUri(info), info.extraHealthcheckHeaders)
      && t[1] == HttpCheckSendState && forall k :: 1 <= k < |t| ==> !t[k].HttpCheck?
  {
    BackendTailOrdered(s, name, info);
    var t := BackendTail(s, name, info);
    var h := HealthCheckLines(name, info);
    assert t[..2] == h;
    forall k | 1 <= k < |t| ensures !t[k].HttpCheck? {
      assert Rank(t[1]) == 9 <= Rank(t[k]);
    }
  }

  /** `retries` appears exactly when the service sets it. */
  lemma BackendRetries(s: Settings, name: string, info: ServiceInfo, isProxy: bool)
    ensures forall n :: Retries(n) in Backend(s, name, info, isProxy) <==> info.retries == Some(n)
  {
    forall n ensures Retries(n) in Backend(s, name, info, isProxy) <==> info.retries == Some(n) {
      InBackendTail(s, name, info, isProxy, Retries(n));
      var h, r, a := HealthCheckLines(name, info), RetriesLines(info), AllredispLines(s, info);
      var c, t := ConnectLines(info), ServerTimeoutLines(info);
      assert Retries(n) !in h && Retries(n) !in a && Retries(n) !in c && Retries(n) !in t;
    }
  }

  /** `option allredisp` appears exactly when the service asks for it and the
      tools configuration lets services do so. */
  lemma BackendAllredisp(s: Settings, name: string, info: ServiceInfo, isProxy: bool)
    ensures OptionAllredisp in Backend(s, name, info, isProxy) <==> s.respectAllredisp && info.allredisp
  {
    InBackendTail(s, name, info, isProxy, OptionAllredisp);
    var h, r, a := HealthCheckLines(name, info), RetriesLines(info), AllredispLines(s, info);
    var c, t := ConnectLines(info), ServerTimeoutLines(info);
    assert OptionAllredisp !in h && OptionAllredisp !in r && OptionAllredisp !in c && OptionAllredisp !in t;
  }

  /** `timeout connect` appears exactly when the service sets it. */
  lemma BackendConnectTimeout(s: Settings, name: string, info: ServiceInfo, isProxy: bool)
    ensures forall ms :: TimeoutConnect(ms) in Backend(s, name, info, isProxy) <==> info.timeoutConnectMs == Some(ms)
  {
    forall ms ensures TimeoutConnect(ms) in Backend(s, name, info, isProxy) <==> info.timeoutConnectMs == Some(ms) {
      InBackendTail(s, name, info, isProxy, TimeoutConnect(ms));
      var h, r, a := HealthCheckLines(name, info), RetriesLines(info), AllredispLines(s, info);
      var c, t := ConnectLines(info), ServerTimeoutLines(info);
      var x := TimeoutConnect(ms);
      assert x !in h && x !in r && x !in a && x !in t;
    }
  }

  /** The server timeout line is there exactly when a server timeout resolves,
      with that value. */
  lemma BackendTimeout(s: Settings, name: string, info: ServiceInfo, isProxy: bool)
    ensures forall ms :: TimeoutServer(ms) in Backend(s, name, info, isProxy) <==> ServerTimeout(info) == Some(ms)
  {
    forall ms ensures TimeoutServer(ms) in Backend(s, name, info, isProxy) <==> ServerTimeout(info) == Some(ms) {
      InBackendTail(s, name, info, isProxy, TimeoutServer(ms));
      var h, r, a := HealthCheckLines(name, info), RetriesLines(info), AllredispLines(s, info);
      var c, t := ConnectLines(info), ServerTimeoutLines(info);
      var x := TimeoutServer(ms);
      assert x !in h && x !in r && x !in a && x !in c;
    }
  }

  /** A service that sets only one of the two timeouts gets both lines with that
      value. */
  lemma OneTimeoutSetsBoth(s: Settings, name: string, info: ServiceInfo, isProxy: bool, ms: int)
    requires (info.timeoutClientMs == Given(ms) && info.timeoutServerMs.Missing?)
          || (info.timeoutServerMs == Given(ms) && info.timeoutClientMs.Missing?)
    ensures TimeoutClient(ms) in Frontend(s, info)
    ensures TimeoutServer(ms) in Backend(s, name, info, isProxy)
  {
    TimeoutResolution(info);
    FrontendTimeout(s, info);
    BackendTimeout(s, name, info, isProxy);
  }

  /** A service that sets neither timeout gets no timeout line on either side. */
  lemma NoTimeoutNoLines(s: Settings, name: string, info: ServiceInfo, isProxy: bool)
    requires info.timeoutClientMs.Missing? && info.timeoutServerMs.Missing?
    ensures forall d :: d in Frontend(s, info) ==> !d.TimeoutClient?
    ensures forall d :: d in Backend(s, name, info, isProxy) ==> !d.TimeoutServer?
  {
    TimeoutResolution(info);
    FrontendTimeout(s, info);
    BackendTimeout(s, name, info, isProxy);
  }

  // ---------------------------------------------------------------------------
  // The order of the lines
  // ---------------------------------------------------------------------------

  /** The position of each kind of line in the order the code emits them. The
      frontend kinds share ranks 0-3 with the first backend kinds; ranks are
      only ever compared within one list. */
  function Rank(d: Directive): nat {
    match d
    case TimeoutClient(_) => 0
    case Balance(_) => 0
    case CaptureRequestHeader(_, _) => 1
    case NoOptionAcceptInvalidHttpRequest => 1
    case NoOptionForceclose => 1
    case OptionHttplog => 2
    case OptionTcplog => 2
    case OptionHttpKeepAlive => 2
    case ModeTcp => 3
    case AclIsStatusRequest(_) => 4
    case ReqaddSource(_) => 5
    case Reqidel(_) => 6
    case Reqadd(_, _) => 7
    case HttpCheck(_, _, _, _) => 8
    case HttpCheckSendState => 9
    case Retries(_) => 10
    case OptionAllredisp => 11
    case TimeoutConnect(_) => 12
    case TimeoutServer(_) => 13
    case _ => 14
  }

  predicate Ranked(ds: seq<Directive>) {
    forall i, j :: 0 <= i < j < |ds| ==> Rank(ds[i]) <= Rank(ds[j])
  }

  predicate RanksIn(ds: seq<Directive>, lo: nat, hi: nat) {
    forall i :: 0 <= i < |ds| ==> lo <= Rank(ds[i]) <= hi
  }

  lemma RankedAppend(a: seq<Directive>, b: seq<Directive>, lo: nat, mid: nat, hi: nat)
    requires lo <= mid <= hi
    requires Ranked(a) && RanksIn(a, lo, mid)
    requires Ranked(b) && RanksIn(b, mid, hi)
    ensures Ranked(a + b) && RanksIn(a + b, lo, hi)
  {
    var c := a + b;
    forall i, j | 0 <= i < j < |c| ensures Rank(c[i]) <= Rank(c[j]) {
      if j < |a| {
        assert c[i] == a[i] && c[j] == a[j];
      } else if i >= |a| {
        assert c[i] == b[i - |a|] && c[j] == b[j - |a|];
      } else {
        assert c[i] == a[i] && c[j] == b[j - |a|];
      }
    }
    forall i | 0 <= i < |c| ensures lo <= Rank(c[i]) <= hi {
      if i < |a| {
        assert c[i] == a[i];
      } else {
        assert c[i] == b[i - |a|];
      }
    }
  }

  lemma RankedConstant(ds: seq<Directive>, r: nat)
    requires RanksIn(ds, r, r)
    ensures Ranked(ds)
  {
  }

  /** The frontend lines come in the code's order: client timeout, captured
      headers or the refusal of invalid requests, the log format, `mode tcp`. */
  lemma FrontendOrdered(s: Settings, info: ServiceInfo)
    ensures Ranked(Frontend(s, info)) && RanksIn(Frontend(s, info), 0, 3)
  {
    var t, l, m := ClientTimeoutLines(info), LogLines(s, info), TcpLines(info);
    LogLinesRanked(s, info);
    assert Ranked(t) && RanksIn(t, 0, 0);
    assert Ranked(m) && RanksIn(m, 3, 3);
    RankedAppend(t, l, 0, 0, 2);
    RankedAppend(t + l, m, 0, 2, 3);
  }

  lemma LogLinesRanked(s: Settings, info: ServiceInfo)
    ensures Ranked(LogLines(s, info)) && RanksIn(LogLines(s, info), 1, 2)
  {
    if HttpMode(info) {
      CapturesRanked(s.capturedReqHeaders);
      HttpLogRanked(CapturedHeaders(s.capturedReqHeaders));
    } else if TcpMode(info) {
      TcpLogRanked();
    }
  }

  lemma HttpLogRanked(c: seq<Directive>)
    requires Ranked(c) && RanksIn(c, 1, 1)
    ensures Ranked(c + [OptionHttplog]) && RanksIn(c + [OptionHttplog], 1, 2)
  {
    RankedAppend(c, [OptionHttplog], 1, 1, 2);
  }

  lemma TcpLogRanked()
    ensures Ranked([NoOptionAcceptInvalidHttpRequest, OptionTcplog])
    ensures RanksIn([NoOptionAcceptInvalidHttpRequest, OptionTcplog], 1, 2)
  {
  }

  lemma CapturesRanked(list: string)
    ensures Ranked(CapturedHeaders(list)) && RanksIn(CapturedHeaders(list), 1, 1)
  {
    var c := CapturedHeaders(list);
    forall i | 0 <= i < |c| ensures Rank(c[i]) == 1 {
      assert c[i].CaptureRequestHeader?;
    }
    RankedConstant(c, 1);
  }

  /** The backend lines come in the code's order: balance, keep-alive, `mode
      tcp`, the proxy source stamp, header deletions, header additions, the
      health check and `send-state`, retries, allredisp, the connect timeout and
      the server timeout. */
  lemma BackendOrdered(s: Settings, name: string, info: ServiceInfo, isProxy: bool)
    ensures Ranked(Backend(s, name, info, isProxy)) && RanksIn(Backend(s, name, info, isProxy), 0, 13)
  {
    BackendHeadOrdered(name, info, isProxy);
    BackendTailOrdered(s, name, info);
    var head, hs := BackendHead(name, info, isProxy), info.extraHeaders;
    var ri, ra := Reqidels(hs), Reqadds(hs);
    assert RanksIn(ri, 6, 6) && RanksIn(ra, 7, 7);
    RankedConstant(ri, 6);
    RankedConstant(ra, 7);
    RankedAppend(head, ri, 0, 5, 6);
    RankedAppend(head + ri, ra, 0, 6, 7);
    RankedAppend(head + ri + ra, BackendTail(s, name, info), 0, 7, 13);
  }

  lemma BackendHeadOrdered(name: string, info: ServiceInfo, isProxy: bool)
    ensures Ranked(BackendHead(name, info, isProxy)) && RanksIn(BackendHead(name, info, isProxy), 0, 5)
  {
    var b, k, t, p := BalanceLines(info), KeepaliveLines(info), TcpLines(info), ProxyLines(name, info, isProxy);
    HeadPartsRanked(name, info, isProxy);
    RankedAppend(b, k, 0, 0, 2);
    RankedAppend(b + k, t, 0, 2, 3);
    RankedAppend(b + k + t, p, 0, 3, 5);
  }

  lemma HeadPartsRanked(name: string, info: ServiceInfo, isProxy: bool)
    ensures Ranked(BalanceLines(info)) && RanksIn(BalanceLines(info), 0, 0)
    ensures Ranked(KeepaliveLines(info)) && RanksIn(KeepaliveLines(info), 1, 2)
    ensures Ranked(TcpLines(info)) && RanksIn(TcpLines(info), 3, 3)
    ensures Ranked(ProxyLines(name, info, isProxy)) && RanksIn(ProxyLines(name, info, isProxy), 4, 5)
  {
    BalanceRanked(info);
    KeepaliveRanked(info);
    TcpRanked(info);
    ProxyRanked(name, info, isProxy);
  }

  lemma BalanceRanked(info: ServiceInfo)
    ensures Ranked(BalanceLines(info)) && RanksIn(BalanceLines(info), 0, 0)
  {
  }

  lemma KeepaliveRanked(info: ServiceInfo)
    ensures Ranked(KeepaliveLines(info)) && RanksIn(KeepaliveLines(info), 1, 2)
  {
  }

  lemma TcpRanked(info: ServiceInfo)
    ensures Ranked(TcpLines(info)) && RanksIn(TcpLines(info), 3, 3)
  {
  }

  lemma ProxyRanked(name: string, info: ServiceInfo, isProxy: bool)
    ensures Ranked(ProxyLines(name, info, isProxy)) && RanksIn(ProxyLines(name, info, isProxy), 4, 5)
  {
  }

  lemma BackendTailOrdered(s: Settings, name: string, info: ServiceInfo)
    ensures Ranked(BackendTail(s, name, info)) && RanksIn(BackendTail(s, name, info), 8, 13)
  {
    var h, r, a := HealthCheckLines(name, info), RetriesLines(info), AllredispLines(s, info);
    var c, t := ConnectLines(info), ServerTimeoutLines(info);
    TailPartsRanked(s, name, info);
    RankedAppend(h, r, 8, 9, 10);
    RankedAppend(h + r, a, 8, 10, 11);
    RankedAppend(h + r + a, c, 8, 11, 12);
    RankedAppend(h + r + a + c, t, 8, 12, 13);
  }

  lemma TailPartsRanked(s: Settings, name: string, info: ServiceInfo)
    ensures Ranked(HealthCheckLines(name, info)) && RanksIn(HealthCheckLines(name, info), 8, 9)
    ensures Ranked(RetriesLines(info)) && RanksIn(RetriesLines(info), 10, 10)
    ensures Ranked(AllredispLines(s, info)) && RanksIn(AllredispLines(s, info), 11, 11)
    ensures Ranked(ConnectLines(info)) && RanksIn(ConnectLines(info), 12, 12)
    ensures Ranked(ServerTimeoutLines(info)) && RanksIn(ServerTimeoutLines(info), 13, 13)
  {
    HealthCheckRanked(name, info);
    RetriesRanked(info);
    AllredispRanked(s, info);
    ConnectRanked(info);
    ServerTimeoutRanked(info);
  }

  lemma HealthCheckRanked(name: string, info: ServiceInfo)
    ensures Ranked(HealthCheckLines(name, info)) && RanksIn(HealthCheckLines(name, info), 8, 9)
  {
  }

  lemma RetriesRanked(info: ServiceInfo)
    ensures Ranked(RetriesLines(info)) && RanksIn(RetriesLines(info), 10, 10)
  {
  }

  lemma AllredispRanked(s: Settings, info: ServiceInfo)
    ensures Ranked(AllredispLines(s, info)) && RanksIn(AllredispLines(s, info), 11, 11)
  {
  }

  lemma ConnectRanked(info: ServiceInfo)
    ensures Ranked(ConnectLines(info)) && RanksIn(ConnectLines(info), 12, 12)
  {
  }

  lemma ServerTimeoutRanked(info: ServiceInfo)
    ensures Ranked(ServerTimeoutLines(info)) && RanksIn(ServerTimeoutLines(info), 13, 13)
  {
  }

  lemma Regroup3<T>(a: seq<T>, b: seq<T>, c: seq<T>)
    ensures a + b + c == a + (b + c)
  {
  }

  lemma Regroup5<T>(m: seq<T>, a: seq<T>, b: seq<T>, c: seq<T>, d: seq<T>, e: seq<T>)
    ensures m + a + b + c + d + e == m + (a + b + c + d + e)
  {
  }
}
