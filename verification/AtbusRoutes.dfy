/** What surrounds the atbus connector while an event is handled, the clocks of its entries, and the
    route that a connect attempt takes. */
module AtbusRoutes {
  import opened Common
  import opened AtbusTable
  import Backoff

  datatype Relation =
    | Invalid | Self | ImmediateUpstream | TransitiveUpstream
    | ImmediateDownstream | TransitiveDownstream | SameUpstreamPeer | OtherUpstreamPeer

  /** The bus part of the configuration; durations in microseconds as configured. */
  datatype Config = Config(maxTry: nat, startInterval: int, maxInterval: int, lostTimeout: int)

  /** What the connector sees of the clock, the bus node, the topology registry and the
      discovery data while one event is handled. chain(id) is the registered peer id followed
      by its upstreams, or empty; nextHop(id) is 0 when there is none. */
  datatype Env = Env(
    now: Time,
    conf: Config,
    hasNode: bool,
    self: BusId,
    upstreamEp: BusId,
    endpoints: set<BusId>,
    available: set<BusId>,
    relation: BusId -> Relation,
    nextHop: BusId -> BusId,
    chain: BusId -> seq<BusId>,
    policyOk: set<BusId>,
    discovery: set<BusId>,
    addressable: set<BusId>,
    allowDirect: bool,
    requireSameUpstream: bool,
    pendingApps: set<AppRef>)
  {
    ghost predicate Sane() {
      && now > 0
      && (forall id :: id != 0 && chain(id) != [] ==> chain(id)[0] == id)
      && (forall id, k :: 0 <= k < |chain(id)| ==> chain(id)[k] != 0 && (k > 0 ==> chain(id)[k] != id))
    }

    predicate Available(id: BusId) {
      hasNode && id != 0 && id in endpoints && id in available
    }
  }

  datatype Code =
    | Success | TryNext | NoNode | InvalidId | TopologyUnknown | TopologyDeny | NoAddress | DiscoveryNotFound

  const U32 := 0x1_0000_0000

  function StartInterval(conf: Config): nat {
    if conf.startInterval <= 0 then 8_000_000 else conf.startInterval
  }

  function MaxInterval(conf: Config): nat {
    if conf.maxInterval <= 0 then 60_000_000 else conf.maxInterval
  }

  function LostTimeout(conf: Config): nat {
    if conf.lostTimeout <= 0 then 120_000_000 else conf.lostTimeout
  }

  /** A timer that is pending and due no later than t is kept; any other is replaced. */
  function Armed(c: Clock, t: Time): Clock {
    if c.timer != 0 && c.timer <= t then c else c.(timer := t)
  }

  function LostAt(c: Clock, env: Env): Clock {
    if c.lost then c
    else
      var deadline := env.now + LostTimeout(env.conf);
      Armed(c.(lost := true, lostDeadline := deadline), deadline)
  }

  /** The clock after one more try has been counted and scheduled. */
  function Retried(c: Clock, previous: Time, env: Env): Clock {
    var run := env.now + Backoff.Interval(StartInterval(env.conf), MaxInterval(env.conf), c.retry);
    Armed(c.(retry := (c.retry + 1) % U32, nextReconnect := run), if previous == 0 || run < previous then run else previous)
  }

  predicate OutOfTries(c: Clock, conf: Config) {
    conf.maxTry > 0 && c.retry >= conf.maxTry
  }

  // ---------------------------------------------------------------- routes

  function RelationOf(env: Env, id: BusId): Relation {
    if env.hasNode then env.relation(id) else Invalid
  }

  predicate Vertical(r: Relation) {
    r.ImmediateUpstream? || r.TransitiveUpstream? || r.ImmediateDownstream? || r.TransitiveDownstream?
  }

  /** The peers through which id may be reached directly, nearest first: itself and its
      upstreams, or just itself while its place in the topology is unknown. */
  function Hops(env: Env, id: BusId): seq<BusId> {
    if env.chain(id) != [] then env.chain(id) else if RelationOf(env, id) == Invalid then [id] else []
  }

  /** Policy allows p, and p is connected already, or has to be waited for, or has an address
      to connect to. */
  predicate Fits(env: Env, id: BusId, app: Option<AppRef>, p: BusId) {
    && (env.chain(id) == [] || p in env.policyOk)
    && (p in env.endpoints || p !in env.discovery || (app.Some? && p in env.addressable))
  }

  function FirstHop(env: Env, id: BusId, app: Option<AppRef>, hops: seq<BusId>): Option<BusId> {
    if hops == [] then None
    else if Fits(env, id, app, hops[0]) then Some(hops[0])
    else FirstHop(env, id, app, hops[1..])
  }

  /** FirstHop finds the nearest hop that fits, and finds none only when none fits. */
  lemma {:induction false} FirstHopIsNearest(env: Env, id: BusId, app: Option<AppRef>, hops: seq<BusId>) returns (k: nat)
    ensures k <= |hops|
    ensures forall j :: 0 <= j < k ==> !Fits(env, id, app, hops[j])
    ensures FirstHop(env, id, app, hops).None? <==> k == |hops|
    ensures k < |hops| ==> FirstHop(env, id, app, hops) == Some(hops[k]) && Fits(env, id, app, hops[k])
  {
    if hops == [] || Fits(env, id, app, hops[0]) {
      k := 0;
    } else {
      k := FirstHopIsNearest(env, id, app, hops[1..]);
      k := k + 1;
    }
  }

  /** What a connect attempt decides to do about id. */
  datatype Route =
    | Refused(code: Code)    // the table is left alone
    | Here                   // id is this node
    | Connected              // an endpoint for id exists: ready when it is available
    | Through(hop: BusId)    // directly, or proxied by hop: ready when hop's entry is
    | Forwarded(hop: BusId)  // next hop of the topology: ready when hop's endpoint is available

  /** The direct part: only the target itself may be used unless proxies are allowed. */
  function PeerRoute(env: Env, id: BusId, app: Option<AppRef>, allowProxy: bool): Route {
    if Hops(env, id) == [] then Refused(TopologyUnknown)
    else if allowProxy then
      (var hop := FirstHop(env, id, app, Hops(env, id)); if hop.Some? then Through(hop.value) else Refused(TryNext))
    else if env.chain(id) != [] && id !in env.policyOk then Refused(TopologyDeny)
    else if Fits(env, id, app, id) then Through(id)
    else if |Hops(env, id)| > 1 then Refused(TopologyDeny)
    else Refused(TryNext)
  }

  predicate MayDial(env: Env, id: BusId) {
    && (RelationOf(env, id).OtherUpstreamPeer? || RelationOf(env, id).SameUpstreamPeer? || RelationOf(env, id).Invalid?)
    && env.allowDirect
    && (!env.requireSameUpstream || RelationOf(env, id).SameUpstreamPeer?)
  }

  /** The topology part: the next hop on the vertical axis, else this node's own upstream. */
  function ForwardRoute(env: Env, id: BusId, allowProxy: bool): Route {
    if Vertical(RelationOf(env, id)) && env.nextHop(id) != 0 then Forwarded(env.nextHop(id))
    else if !allowProxy || env.upstreamEp == 0 then Refused(NoAddress)
    else Forwarded(env.upstreamEp)
  }

  /** What needs no connecting: this node, its upstream, and whoever has an endpoint. */
  function ConnectedRoute(env: Env, id: BusId): Route {
    if !env.hasNode then Refused(NoNode)
    else if id == 0 then Refused(InvalidId)
    else if id == env.self then Here
    else if id == env.upstreamEp || id in env.endpoints then Connected
    else Refused(TryNext)
  }

  function RouteOf(env: Env, id: BusId, app: Option<AppRef>, allowProxy: bool): Route {
    if ConnectedRoute(env, id) != Refused(TryNext) then ConnectedRoute(env, id)
    else if MayDial(env, id) && PeerRoute(env, id, app, allowProxy) != Refused(TryNext) then PeerRoute(env, id, app, allowProxy)
    else ForwardRoute(env, id, allowProxy)
  }

  function CodeOf(r: Route): Code {
    if r.Refused? then r.code else Success
  }

  /** Whether following a route may add a proxy link. */
  predicate Binds(r: Route, id: BusId) {
    (r.Through? || r.Forwarded?) && r.hop != id
  }

  /** Without permission to use proxies, and off the vertical axis, no route adds a link. */
  lemma DirectRouteAddsNoLink(env: Env, id: BusId, app: Option<AppRef>)
    requires !Vertical(RelationOf(env, id))
    ensures !Binds(RouteOf(env, id, app, false), id)
  {
  }
}
