/** What the events of the atbus connector do to flags, links and clocks of the entries, written down without
    the functions of which the state machine is made, and the proof that the machine does just that. */
module AtbusLaws {
  import opened Common
  import opened Reachability
  import opened AtbusTable
  import opened AtbusRoutes
  import opened AtbusMachine
  import opened AtbusOutcomes
  import Backoff

  // ---------------------------------------------------------------- readiness and removal

  /** id has become ready, or unready: with it exactly those have changed that had the other flag and hang on
      one that has changed. Who becomes ready starts over with its tries, and keeps its timer only while lost. */
  ghost predicate Spread(hs: Table, hs': Table, id: BusId, ready: bool) {
    && id in hs && hs'.Keys == hs.Keys && hs'[id].ready == ready
    && forall x {:trigger hs'[x]} :: x in hs ==>
         var h, h', p := hs[x], hs'[x], hs[x].proxy;
         && h' == h.(ready := h'.ready, clock := h'.clock)
         && (h'.ready != h.ready <==> h.ready != ready && (x == id || (p in hs && hs'[p].ready != hs[p].ready)))
         && h'.clock == (if h'.ready == h.ready || !ready then h.clock
                         else h.clock.(retry := 0, nextReconnect := 0, timer := if h.clock.lost then h.clock.timer else 0))
  }

  /** Closing what entry x holds reaches x. */
  predicate Releases(app: Option<AppRef>, stamps: Stamps, x: BusId) {
    app.None? || (app.value in stamps && stamps[app.value] == x)
  }

  /** id has been removed: with it exactly those have gone that hang on one that has gone and hold no application
      handle, or one stamped with their own id. Who stays loses its links to them, and its readiness exactly if
      it hangs on one other than id that was ready and has gone or has lost its readiness. */
  ghost predicate Swept(hs: Table, stamps: Stamps, id: BusId, hs': Table) {
    && id in hs && id !in hs' && hs'.Keys <= hs.Keys
    && (forall x :: x in hs && x != id ==>
          (x !in hs' <==> hs[x].proxy in hs && hs[x].proxy !in hs' && Releases(hs[x].entry.app, stamps, x)))
    && (forall x {:trigger hs'[x]} :: x in hs' ==>
          var h, h', p := hs[x], hs'[x], hs[x].proxy;
          && h' == h.(proxy := if p in hs' then p else 0, proxyFor := h.proxyFor * hs'.Keys, ready := h'.ready)
          && (h'.ready <==> h.ready && !(p in hs && p != id && hs[p].ready && (p in hs' ==> !hs'[p].ready))))
  }

  lemma FlipsBack(hs: Table, id: BusId, ready: bool, x: BusId)
    requires Linked(hs, {}) && id in hs && x in hs
    ensures var flips, p := Flips(hs, id, ready), hs[x].proxy;
      x in flips <==> hs[x].ready != ready && ((x == id) || (p in hs && p in flips))
  {
    var g, white := Down(hs), ReadyIds(hs, !ready);
    ReachSetIsClosed(g, white, id);
    if x in Flips(hs, id, ready) && x != id {
      ReachesBack(g, white, id, x);
    }
    if x in white && hs[x].proxy in hs && hs[x].proxy in Flips(hs, id, ready) {
      assert x in g[hs[x].proxy];
    }
  }

  lemma SpreadMeans(hs: Table, id: BusId, ready: bool)
    requires Linked(hs, {}) && id in hs
    ensures Spread(hs, SpreadTo(hs, id, ready), id, ready)
  {
    var hs', flips := SpreadTo(hs, id, ready), Flips(hs, id, ready);
    forall x | x in hs
      ensures x in flips ==> hs[x].ready != ready
      ensures x in flips <==> hs[x].ready != ready && (x == id || (hs[x].proxy in hs && hs[x].proxy in flips))
      ensures hs'[x].ready == if x in flips then ready else hs[x].ready
    {
      FlipsBack(hs, id, ready, x);
    }
  }

  lemma GoneBack(hs: Table, stamps: Stamps, id: BusId, x: BusId)
    requires Linked(hs, {}) && id in hs && x in hs && x != id
    ensures var gone, p := Gone(hs, stamps, id), hs[x].proxy;
      x in gone <==> p in hs && p in gone && Releases(hs[x].entry.app, stamps, x)
  {
    var g := Cascade(hs, stamps);
    ReachSetIsClosed(g, hs.Keys, id);
    if x in Gone(hs, stamps, id) {
      ReachesBack(g, hs.Keys, id, x);
    }
    if hs[x].proxy in hs && Closable(hs, stamps, x) {
      assert x in g[hs[x].proxy];
    }
  }

  lemma LoweredBack(hs: Table, id: BusId, gone: set<BusId>, x: BusId)
    requires Linked(hs, {}) && id in hs && x in hs && x !in gone && x != id
    ensures var lowered, p := Lowered(hs, id, gone), hs[x].proxy;
      x in lowered <==> hs[x].ready && p in hs && p != id && hs[p].ready && (p in gone || p in lowered)
  {
    var g, white := Down(hs), ReadyIds(hs, true) - {id};
    ReachFromIsClosed(g, white, gone - {id});
    if x in Lowered(hs, id, gone) {
      var c :| c in gone - {id} && Reaches(g, white, c, x);
      ReachesBack(g, white, c, x);
    }
    var p := hs[x].proxy;
    if p in hs && p != id && hs[p].ready {
      assert p in white && x in g[p];
    }
  }

  lemma SweptMeans(hs: Table, stamps: Stamps, id: BusId)
    requires Linked(hs, {}) && id in hs
    ensures Swept(hs, stamps, id, Removed(hs, stamps, id))
  {
    var hs', gone := Removed(hs, stamps, id), Gone(hs, stamps, id);
    ReachSetIsClosed(Cascade(hs, stamps), hs.Keys, id);
    assert hs'.Keys == hs.Keys - gone;
    forall x | x in hs && x != id
      ensures x in gone <==> hs[x].proxy in hs && hs[x].proxy in gone && Releases(hs[x].entry.app, stamps, x)
    {
      GoneBack(hs, stamps, id, x);
    }
    forall x | x in hs'
      ensures hs'[x] == hs[x].(proxy := if hs[x].proxy in hs' then hs[x].proxy else 0, proxyFor := hs[x].proxyFor * hs'.Keys, ready := hs'[x].ready)
      ensures hs'[x].ready <==> hs[x].ready && x !in Lowered(hs, id, gone)
    {
      SurvivorLinks(hs, gone, x);
    }
    forall x | x in hs'
      ensures var p := hs[x].proxy;
        hs'[x].ready <==> hs[x].ready && !(p in hs && p != id && hs[p].ready && (p in hs' ==> !hs'[p].ready))
    {
      LoweredBack(hs, id, gone, x);
    }
  }

  lemma SurvivorLinks(hs: Table, gone: set<BusId>, x: BusId)
    requires Linked(hs, {}) && x in hs && x !in gone
    ensures hs[x].proxyFor - gone == hs[x].proxyFor * (hs.Keys - gone)
    ensures (if hs[x].proxy in gone then 0 else hs[x].proxy) == if hs[x].proxy in hs.Keys - gone then hs[x].proxy else 0
  {
    forall y | y in hs[x].proxyFor ensures y in hs {
    }
  }

  // ---------------------------------------------------------------- tries

  predicate Up(env: Env, x: BusId) {
    env.hasNode && x != 0 && x in env.endpoints && x in env.available
  }

  /** x is above or below this node in the topology. */
  predicate InLine(env: Env, x: BusId) {
    var r := env.relation(x);
    env.hasNode && (r.ImmediateUpstream? || r.TransitiveUpstream? || r.ImmediateDownstream? || r.TransitiveDownstream?)
  }

  /** All tries that are allowed have been made. */
  predicate Spent(h: Handle, env: Env) {
    0 < env.conf.maxTry <= h.clock.retry
  }

  /** h' is h after one more try has been counted and the next one scheduled; the timer is armed for it, or for
      an earlier time that is given, or stays if it fires before that. */
  predicate Tallied(h: Handle, h': Handle, given: Time, env: Env) {
    var c := h.clock;
    var start := if env.conf.startInterval <= 0 then 8_000_000 else env.conf.startInterval;
    var most := if env.conf.maxInterval <= 0 then 60_000_000 else env.conf.maxInterval;
    var run := env.now + Backoff.Interval(start, most, c.retry);
    var due := if 0 < given <= run then given else run;
    h' == h.(clock := Clock((c.retry + 1) % 0x1_0000_0000, run, c.lost, c.lostDeadline, if 0 < c.timer <= due then c.timer else due))
  }

  /** One more try of id: counted, or, when all have been made, its entry is removed. */
  ghost predicate TriedOnce(hs: Table, stamps: Stamps, id: BusId, given: Time, env: Env, hs': Table) {
    id in hs &&
    if Spent(hs[id], env) then Swept(hs, stamps, id, hs')
    else id in hs' && hs' == hs[id := hs'[id]] && Tallied(hs[id], hs'[id], given, env)
  }

  lemma TriedMeans(hs: Table, stamps: Stamps, id: BusId, given: Time, env: Env)
    requires Linked(hs, {}) && id in hs
    ensures TriedOnce(hs, stamps, id, given, env, Tried(hs, stamps, id, given, env))
  {
    hide Removed, Swept, Linked, Backoff.Interval;
    SweptMeans(hs, stamps, id);
  }

  // ---------------------------------------------------------------- another attempt at the target itself

  /** Connecting to id itself is allowed. */
  predicate MayReach(env: Env, id: BusId) {
    var r := if env.hasNode then env.relation(id) else Invalid;
    && (r.OtherUpstreamPeer? || r.SameUpstreamPeer? || r.Invalid?) && env.allowDirect && (env.requireSameUpstream ==> r.SameUpstreamPeer?)
    && (if env.chain(id) != [] then id in env.policyOk else r.Invalid?)
  }

  predicate AtRest(h: Handle, id: BusId, env: Env) {
    h.ready || h.clock.lost || InLine(env, id) || h.proxy != 0 || h.entry.waiting
  }

  /** Another attempt at id: nothing for an entry that is ready, lost, proxied or waiting, or up or down the tree;
      without discovery data it waits; when an endpoint is there it has that one's readiness; else, with an
      address and permission, a connection is started if a try is due, and that try is counted. */
  ghost predicate Reattempted(s: State, id: BusId, env: Env, s': State) {
    id in s.hs &&
    var h := s.hs[id];
    && s' == s.(hs := s'.hs, dials := s'.dials)
    && if AtRest(h, id, env) then s' == s
       else if id !in env.discovery then s' == s.(hs := s.hs[id := h.(entry := h.entry.(waiting := true))])
       else if env.hasNode && id == env.self then s'.dials == s.dials && Spread(s.hs, s'.hs, id, true)
       else if env.hasNode && (id == env.upstreamEp || id in env.endpoints) then s'.dials == s.dials && Spread(s.hs, s'.hs, id, Up(env, id))
       else if env.hasNode && MayReach(env, id) && h.entry.app.Some? && id in env.addressable && h.clock.nextReconnect <= env.now then
         s'.dials == (if Spent(h, env) then s.dials else s.dials + [id]) && TriedOnce(s.hs, s.stamps, id, 0, env, s'.hs)
       else s' == s
  }

  /** Entering an entry that is there, with the handle it has, changes nothing. */
  lemma EnsuredAlready(s: State, id: BusId, env: Env)
    requires id in s.hs
    ensures Ensure(s, id, s.hs[id].entry.app, env) == s
  {
    var h := s.hs[id];
    assert h.(entry := h.entry.(app := h.entry.app)) == h;
    assert s.hs[id := h] == s.hs;
  }

  lemma AttachedAlready(s: State, id: BusId, env: Env)
    requires id in s.hs && !s.hs[id].ready
    ensures Attached(s, id, id, s.hs[id].entry.app, env) == s
  {
    hide Ensure;
    EnsuredAlready(s, id, env);
    FlipsNothing(s.hs, id, false);
  }

  /** The route of such an attempt. */
  lemma AgainRoute(env: Env, id: BusId, app: Option<AppRef>)
    requires id != 0 && !InLine(env, id) && id in env.discovery
    ensures var r, open := RouteOf(env, id, app, false), env.hasNode && id != env.self && id != env.upstreamEp && id !in env.endpoints;
      && (env.hasNode && id == env.self ==> r == Here)
      && (env.hasNode && id != env.self && !open ==> r == Connected)
      && (open && MayReach(env, id) && app.Some? && id in env.addressable ==> r == Through(id))
      && (!env.hasNode || (open && !(MayReach(env, id) && app.Some? && id in env.addressable)) ==> r.Refused?)
  {
  }

  lemma DirectAlready(s: State, id: BusId, ready: bool, env: Env)
    requires Linked(s.hs, {}) && id in s.hs
    ensures var t := Direct(s, id, s.hs[id].entry.app, ready, env); t == s.(hs := t.hs) && Spread(s.hs, t.hs, id, ready)
  {
    hide Spread, SpreadTo, Ensure, Linked;
    EnsuredAlready(s, id, env);
    SpreadMeans(s.hs, id, ready);
  }

  lemma DialedAlready(s: State, id: BusId, env: Env)
    requires Linked(s.hs, {}) && id in s.hs && !s.hs[id].ready
    ensures var h, t := s.hs[id], DialedHop(s, id, id, s.hs[id].entry.app, env);
      && t == s.(hs := t.hs, dials := t.dials)
      && (h.clock.nextReconnect > env.now ==> t == s)
      && (h.clock.nextReconnect <= env.now ==>
            t.dials == (if Spent(h, env) then s.dials else s.dials + [id]) && TriedOnce(s.hs, s.stamps, id, 0, env, t.hs))
  {
    hide Attached, Tried, TriedOnce, Linked;
    AttachedAlready(s, id, env);
    TriedMeans(s.hs, s.stamps, id, 0, env);
  }

  lemma AgainMeans(s: State, id: BusId, env: Env)
    requires Sound(s) && id in s.hs
    ensures Reattempted(s, id, env, Again(s, id, env))
  {
    hide RouteOf, Spread, TriedOnce, MayReach, Direct, DialedHop, UsedHop, LostTimed, AppsUnique, SerialsBelow;
    var h, app := s.hs[id], s.hs[id].entry.app;
    if !AtRest(h, id, env) && id in env.discovery {
      AgainRoute(env, id, app);
      DirectAlready(s, id, true, env);
      DirectAlready(s, id, Up(env, id), env);
      DialedAlready(s, id, env);
    }
  }

  // ---------------------------------------------------------------- routes

  /** p can be used on the way to id: policy allows it, and it is connected, or has to be waited for, or has an
      address that a handle can be connected to. */
  predicate Usable(env: Env, id: BusId, app: Option<AppRef>, p: BusId) {
    && (env.chain(id) == [] || p in env.policyOk)
    && (p in env.endpoints || p !in env.discovery || (app.Some? && p in env.addressable))
  }

  ghost predicate Nearest(env: Env, id: BusId, app: Option<AppRef>, hops: seq<BusId>, p: BusId) {
    exists k :: 0 <= k < |hops| && hops[k] == p && Usable(env, id, app, p) && forall j :: 0 <= j < k ==> !Usable(env, id, app, hops[j])
  }

  ghost predicate SomeUsable(env: Env, id: BusId, app: Option<AppRef>, hops: seq<BusId>) {
    exists k :: 0 <= k < |hops| && Usable(env, id, app, hops[k])
  }

  /** The peers from id upwards, or id alone while nobody knows its place. */
  function Ladder(env: Env, id: BusId): seq<BusId> {
    if env.chain(id) != [] then env.chain(id) else if env.relation(id).Invalid? then [id] else []
  }

  /** The one way to id. This node and whoever has an endpoint need none. Where direct connections are allowed it
      is the nearest usable one of the peers from id upwards, or id itself alone when proxies are not allowed.
      Else it is the next hop of the topology, up or down the tree, or else this node's own upstream. */
  ghost predicate RouteIs(env: Env, id: BusId, app: Option<AppRef>, allowProxy: bool, r: Route) {
    var r0, hops := env.relation(id), Ladder(env, id);
    var direct := (r0.OtherUpstreamPeer? || r0.SameUpstreamPeer? || r0.Invalid?) && env.allowDirect && (env.requireSameUpstream ==> r0.SameUpstreamPeer?);
    if !env.hasNode then r == Refused(NoNode)
    else if id == 0 then r == Refused(InvalidId)
    else if id == env.self then r == Here
    else if id == env.upstreamEp || id in env.endpoints then r == Connected
    else if direct && hops == [] then r == Refused(TopologyUnknown)
    else if direct && allowProxy && SomeUsable(env, id, app, hops) then
      r.Through? && Nearest(env, id, app, hops, r.hop)
    else if direct && !allowProxy && Usable(env, id, app, id) then r == Through(id)
    else if direct && !allowProxy && (|hops| > 1 || (env.chain(id) != [] && id !in env.policyOk)) then r == Refused(TopologyDeny)
    else if InLine(env, id) && env.nextHop(id) != 0 then r == Forwarded(env.nextHop(id))
    else if allowProxy && env.upstreamEp != 0 then r == Forwarded(env.upstreamEp)
    else r == Refused(NoAddress)
  }

  lemma UsableFits(env: Env, id: BusId, app: Option<AppRef>, p: BusId)
    ensures Usable(env, id, app, p) <==> Fits(env, id, app, p)
  {
  }

  lemma UsableNeedsPolicy(env: Env, id: BusId, app: Option<AppRef>)
    ensures Usable(env, id, app, id) ==> env.chain(id) == [] || id in env.policyOk
  {
  }

  lemma NearestUsable(env: Env, id: BusId, app: Option<AppRef>, hops: seq<BusId>)
    ensures var hop := FirstHop(env, id, app, hops);
      && (hop.Some? <==> SomeUsable(env, id, app, hops))
      && forall p: BusId :: Nearest(env, id, app, hops, p) <==> hop == Some(p)
  {
    var k := FirstHopIsNearest(env, id, app, hops);
    assert forall j :: 0 <= j < |hops| ==> (Usable(env, id, app, hops[j]) <==> Fits(env, id, app, hops[j]));
  }

  lemma RouteMeans(env: Env, id: BusId, app: Option<AppRef>, allowProxy: bool)
    ensures RouteIs(env, id, app, allowProxy, RouteOf(env, id, app, allowProxy))
  {
    hide FirstHop, Nearest;
    NearestUsable(env, id, app, Ladder(env, id));
    assert env.hasNode ==> Hops(env, id) == Ladder(env, id);
  }

  /** And there is only one. */
  lemma RouteIsUnique(env: Env, id: BusId, app: Option<AppRef>, allowProxy: bool, r: Route)
    requires RouteIs(env, id, app, allowProxy, r)
    ensures r == RouteOf(env, id, app, allowProxy)
  {
    hide FirstHop, Nearest;
    NearestUsable(env, id, app, Ladder(env, id));
    assert env.hasNode ==> Hops(env, id) == Ladder(env, id);
  }

  // ---------------------------------------------------------------- following a route

  /** h is an entry that has just been made for x: lost at once if the topology does not know x, and below the
      upstream that the topology names. */
  predicate Made(h: Handle, x: BusId, serial: nat, app: Option<AppRef>, env: Env) {
    var known := env.hasNode && env.chain(x) != [];
    var deadline := env.now + if env.conf.lostTimeout <= 0 then 120_000_000 else env.conf.lostTimeout;
    && h.entry == Entry(serial, app, false, false, if known && |env.chain(x)| > 1 then env.chain(x)[1] else 0)
    && h.clock == (if known then Clock(0, 0, false, 0, 0) else Clock(0, 0, true, deadline, deadline))
    && !h.ready && h.proxy == 0 && h.proxyFor == {}
  }

  /** x has an entry, holding app if one is given; only an entry that is made stamps its handle. */
  ghost predicate Entered(s: State, x: BusId, app: Option<AppRef>, env: Env, s': State) {
    && x in s'.hs && s'.hs == s.hs[x := s'.hs[x]] && s'.dials == s.dials && s'.last == s.last
    && (x in s.hs ==>
          s'.stamps == s.stamps && s'.next == s.next &&
          s'.hs[x] == s.hs[x].(entry := s.hs[x].entry.(app := if app.Some? then app else s.hs[x].entry.app)))
    && (x !in s.hs ==>
          Made(s'.hs[x], x, s.next, app, env) && s'.next == s.next + 1 &&
          s'.stamps == if app.Some? then s.stamps[app.value := x] else s.stamps)
  }

  /** id is proxied by p, and no longer by whoever proxied it; nothing happens when p is id or proxies it already. */
  ghost predicate Rehung(hs: Table, id: BusId, p: BusId, hs': Table) {
    id in hs && p in hs &&
    if p == id || hs[id].proxy == p then hs' == hs
    else
      && hs'.Keys == hs.Keys
      && forall x {:trigger hs'[x]} :: x in hs ==>
           hs'[x] == hs[x].(proxy := if x == id then p else hs[x].proxy,
                            proxyFor := hs[x].proxyFor - (if x == hs[id].proxy then {id} else {}) + (if x == p then {id} else {}))
  }

  /** id and its hop have entries, and the hop proxies id. The hop is entered first, unless it is id itself and
      not a next hop of the topology. */
  ghost predicate Opened(s: State, id: BusId, p: BusId, app: Option<AppRef>, relayed: bool, env: Env, s': State) {
    exists a: State, b: State ::
      && (if relayed || p != id then Entered(s, p, None, env, a) else a == s)
      && Entered(a, id, app, env, b) && s' == b.(hs := s'.hs) && Rehung(b.hs, id, p, s'.hs)
  }

  /** A hop that is not ready and has no try scheduled for later has one counted, and a connection is started when
      it has an address to connect to and no endpoint. One that discovery does not know waits for it, unless it
      is up or down the tree or proxied. */
  ghost predicate HopTried(s: State, p: BusId, env: Env, s': State) {
    p in s.hs &&
    var h := s.hs[p];
    var due := !h.ready && h.clock.nextReconnect <= env.now;
    && s' == s.(hs := s'.hs, dials := s'.dials)
    && s'.dials == s.dials + (if due && !Spent(h, env) && p !in env.endpoints && p in env.discovery then [p] else [])
    && if due && Spent(h, env) then Swept(s.hs, s.stamps, p, s'.hs)
       else
         && p in s'.hs && s'.hs == s.hs[p := s'.hs[p]]
         && s'.hs[p].entry == h.entry.(waiting := h.entry.waiting ||
              (p !in env.endpoints && p !in env.discovery && !InLine(env, p) && h.proxy == 0))
         && (if due then Tallied(h, s'.hs[p].(entry := h.entry), 0, env) else s'.hs[p].(entry := h.entry) == h)
  }

  /** What following a route does. */
  ghost predicate Followed(s: State, r: Route, id: BusId, app: Option<AppRef>, env: Env, s': State) {
    match r
    case Refused(_) => s' == s
    case Here => exists mid: State :: Entered(s, id, app, env, mid) && s' == mid.(hs := s'.hs) && Spread(mid.hs, s'.hs, id, true)
    case Connected => exists mid: State :: Entered(s, id, app, env, mid) && s' == mid.(hs := s'.hs) && Spread(mid.hs, s'.hs, id, Up(env, id))
    case Forwarded(p) => exists mid: State :: Opened(s, id, p, app, true, env, mid) && s' == mid.(hs := s'.hs) && Spread(mid.hs, s'.hs, id, Up(env, p))
    case Through(p) =>
      exists mid: State, low: State ::
        && Opened(s, id, p, app, false, env, mid) && p in mid.hs && low == mid.(hs := low.hs)
        && Spread(mid.hs, low.hs, id, mid.hs[p].ready) && HopTried(low, p, env, s')
  }

  lemma EnteredMeans(s: State, x: BusId, app: Option<AppRef>, env: Env)
    ensures Entered(s, x, app, env, Ensure(s, x, app, env))
  {
    if x in s.hs {
      assert s.hs[x].(entry := s.hs[x].entry.(app := s.hs[x].entry.app)) == s.hs[x];
      assert s.hs[x := s.hs[x]] == s.hs;
    }
  }

  lemma RehungMeans(hs: Table, id: BusId, p: BusId)
    requires Linked(hs, {}) && id in hs && p in hs
    ensures Rehung(hs, id, p, Bound(hs, id, p))
  {
    if p != id && hs[id].proxy != p {
      forall x | x in hs
        ensures Bound(hs, id, p)[x] == hs[x].(proxy := if x == id then p else hs[x].proxy,
          proxyFor := hs[x].proxyFor - (if x == hs[id].proxy then {id} else {}) + (if x == p then {id} else {}))
      {
        BoundPointwise(hs, id, p, x);
      }
      BoundPointwise(hs, id, p, id);
    }
  }

  lemma OpenedMeans(s: State, id: BusId, p: BusId, app: Option<AppRef>, relayed: bool, env: Env)
    requires Sound(s) && id != 0 && p != 0 && AppFree(s.hs, id, app) && env.now > 0
    ensures Opened(s, id, p, app, relayed, env, Open(s, id, p, app, relayed, env))
  {
    hide Good, Ensure, Bound, Entered, Rehung, AppFree, Moved;
    var a := if relayed || p != id then Ensure(s, p, None, env) else s;
    var b := Ensure(a, id, app, env);
    EnteredMeans(s, p, None, env);
    EnteredMeans(a, id, app, env);
    PairKeeps(s, id, p, app, relayed, env);
    KeptIsSound(s, b, env, false);
    SoundParts(b);
    RehungMeans(b.hs, id, p);
  }

  lemma SweptIsGone(hs: Table, stamps: Stamps, id: BusId, hs': Table)
    ensures Swept(hs, stamps, id, hs') ==> id !in hs'
  {
  }

  lemma AwaitingMeans(hs: Table, p: BusId, env: Env)
    requires p in hs
    ensures var hs', h := Awaiting(hs, p, env), hs[p];
      p in hs' && hs' == hs[p := h.(entry := h.entry.(waiting := h.entry.waiting || (!InLine(env, p) && h.proxy == 0 && !Up(env, p))))]
  {
    assert hs[p].(entry := hs[p].entry.(waiting := hs[p].entry.waiting)) == hs[p];
    assert hs[p := hs[p]] == hs;
  }

  lemma WokenMeans(s: State, p: BusId, env: Env)
    requires Linked(s.hs, {}) && p in s.hs
    ensures var h, u := s.hs[p], Woken(s, p, env);
      var due := !h.ready && h.clock.nextReconnect <= env.now;
      && u == s.(hs := u.hs)
      && (due && Spent(h, env) ==> Swept(s.hs, s.stamps, p, u.hs) && p !in u.hs)
      && (!(due && Spent(h, env)) ==>
            p in u.hs && u.hs == s.hs[p := u.hs[p]] && u.hs[p] == h.(clock := u.hs[p].clock) && (if due then Tallied(h, u.hs[p], 0, env) else u.hs[p] == h))
  {
    hide Tried, Swept, Linked;
    TriedMeans(s.hs, s.stamps, p, 0, env);
    SweptIsGone(s.hs, s.stamps, p, Tried(s.hs, s.stamps, p, 0, env));
    assert s.hs[p := s.hs[p]] == s.hs;
  }

  lemma HopMeans(s: State, id: BusId, p: BusId, app: Option<AppRef>, env: Env)
    requires Sound(Attached(s, id, p, app, env)) && p != 0
    ensures NoDialing(env, p) ==> HopTried(Attached(s, id, p, app, env), p, env, UsedHop(s, id, p, app, env))
    ensures !NoDialing(env, p) ==> HopTried(Attached(s, id, p, app, env), p, env, DialedHop(s, id, p, app, env))
  {
    hide Attached, Woken, Swept, Good, Awaiting, Tallied, Linked, AppsUnique;
    var t := Attached(s, id, p, app, env);
    SoundParts(t);
    WokenMeans(t, p, env);
    var u := Woken(t, p, env);
    if p in u.hs {
      AwaitingMeans(u.hs, p, env);
      assert u.hs[p].(entry := t.hs[p].entry) == u.hs[p];
    }
  }

  lemma DirectMeans(s: State, id: BusId, app: Option<AppRef>, ready: bool, env: Env)
    requires Sound(s) && id != 0 && AppFree(s.hs, id, app) && env.now > 0
    ensures var mid, t := Ensure(s, id, app, env), Direct(s, id, app, ready, env);
      Entered(s, id, app, env, mid) && t == mid.(hs := t.hs) && Spread(mid.hs, t.hs, id, ready)
  {
    hide Good, Ensure, SpreadTo, Entered, Spread, AppFree, Moved;
    var mid := Ensure(s, id, app, env);
    EnteredMeans(s, id, app, env);
    EnsureKeeps(s, id, app, env);
    KeptIsSound(s, mid, env, false);
    SoundParts(mid);
    SpreadMeans(mid.hs, id, ready);
  }

  /** An entry at its hop, with the readiness that is given for it. */
  lemma OpenSpread(s: State, id: BusId, p: BusId, app: Option<AppRef>, relayed: bool, ready: bool, env: Env)
    requires Sound(s) && id != 0 && p != 0 && AppFree(s.hs, id, app) && env.now > 0
    ensures var mid := Open(s, id, p, app, relayed, env);
      Opened(s, id, p, app, relayed, env, mid) && Spread(mid.hs, SpreadTo(mid.hs, id, ready), id, ready)
  {
    hide Good, Open, SpreadTo, Opened, Spread, AppFree, Moved;
    var mid := Open(s, id, p, app, relayed, env);
    OpenedMeans(s, id, p, app, relayed, env);
    OpenKeeps(s, id, p, app, relayed, env);
    KeptIsSound(s, mid, env, p != id);
    SoundParts(mid);
    SpreadMeans(mid.hs, id, ready);
  }

  lemma FollowMeans(s: State, r: Route, id: BusId, app: Option<AppRef>, env: Env)
    requires Sound(s) && AppFree(s.hs, id, app) && env.now > 0
    requires !r.Refused? ==> id != 0
    requires r.Through? || r.Forwarded? ==> r.hop != 0
    ensures Followed(s, r, id, app, env, Follow(s, r, id, app, env))
  {
    hide Good, Open, SpreadTo, Opened, Spread, AppFree, Moved, Ensure, UsedHop, DialedHop, HopTried, Entered, Direct;
    match r
    case Refused(_) =>
    case Here => DirectMeans(s, id, app, true, env);
    case Connected => DirectMeans(s, id, app, env.Available(id), env);
    case Forwarded(p) => OpenSpread(s, id, p, app, true, env.Available(p), env);
    case Through(p) =>
      var mid, low := Open(s, id, p, app, false, env), Attached(s, id, p, app, env);
      OpenSpread(s, id, p, app, false, mid.hs[p].ready, env);
      AttachedKeeps(s, id, p, app, env);
      KeptIsSound(s, low, env, p != id);
      HopMeans(s, id, p, app, env);
  }

  /** A connect attempt takes the one way there is. */
  ghost predicate Attempt(s: State, id: BusId, app: Option<AppRef>, allowProxy: bool, env: Env, code: Code, s': State) {
    exists r :: RouteIs(env, id, app, allowProxy, r) && code == (if r.Refused? then r.code else Success) && Followed(s, r, id, app, env, s')
  }

  lemma ConnectMeans(s: State, id: BusId, app: Option<AppRef>, allowProxy: bool, env: Env)
    requires Sound(s) && AppFree(s.hs, id, app) && env.Sane()
    ensures Attempt(s, id, app, allowProxy, env, CodeOf(RouteOf(env, id, app, allowProxy)), Connect(s, id, app, allowProxy, env))
  {
    hide Good, RouteIs, RouteOf, Followed, Follow, AppFree;
    HopsAreIds(env, id, app, allowProxy);
    RouteMeans(env, id, app, allowProxy);
    FollowMeans(s, RouteOf(env, id, app, allowProxy), id, app, env);
  }

  // ---------------------------------------------------------------- a topology update

  /** Something still needs the entry: it is in use, it proxies somebody, or messages wait for it. */
  predicate Needed(h: Handle, env: Env) {
    h.entry.active || h.proxyFor != {} || (h.entry.app.Some? && h.entry.app.value in env.pendingApps)
  }

  /** id is proxied by nobody any more. */
  ghost predicate Unhung(hs: Table, id: BusId, hs': Table) {
    && id in hs && hs'.Keys == hs.Keys
    && forall x {:trigger hs'[x]} :: x in hs ==>
         hs'[x] == hs[x].(proxy := if x == id then 0 else hs[x].proxy,
                          proxyFor := if x == hs[id].proxy then hs[x].proxyFor - {id} else hs[x].proxyFor)
  }

  /** id has left its proxy; when id is this node itself, that proxy has been removed as well. */
  ghost predicate ProxyLeft(hs: Table, stamps: Stamps, id: BusId, env: Env, hs': Table) {
    id in hs &&
    var p := hs[id].proxy;
    if p == 0 then hs' == hs
    else exists free: Table :: Unhung(hs, id, free) && if id == env.self then Swept(free, stamps, p, hs') else hs' == free
  }

  /** A new place for an entry without a proxy, reported below up: ready when its endpoint is available; gone when
      nothing needs it; else below up, with the readiness of that entry, when there is one; else unready while it
      waits for discovery data, or has none, for which it then waits; else connected anew, over proxies only if it
      is in use, and when that leaves it unready and without a try for later, one more try is counted. */
  ghost predicate Rehomed(s: State, id: BusId, up: BusId, env: Env, s': State) {
    id in s.hs &&
    var h := s.hs[id];
    if Up(env, id) then s' == s.(hs := s'.hs) && Spread(s.hs, s'.hs, id, true)
    else if !Needed(h, env) then s' == s.(hs := s'.hs) && Swept(s.hs, s.stamps, id, s'.hs)
    else if up != 0 && up in s.hs then
      s' == s.(hs := s'.hs) && exists hung: Table :: Rehung(s.hs, id, up, hung) && up in hung && Spread(hung, s'.hs, id, hung[up].ready)
    else if h.entry.waiting then s' == s.(hs := s'.hs) && Spread(s.hs, s'.hs, id, false)
    else if id !in env.discovery then
      var waits := h.(entry := h.entry.(waiting := !InLine(env, id) && h.proxy == 0));
      s' == s.(hs := s'.hs) && Spread(s.hs[id := waits], s'.hs, id, false)
    else exists low: State, code ::
      && Attempt(s, id, h.entry.app, h.entry.active, env, code, low)
      && if id in low.hs && !low.hs[id].ready && low.hs[id].clock.nextReconnect <= env.now
         then s' == low.(hs := s'.hs) && TriedOnce(low.hs, low.stamps, id, 0, env, s'.hs)
         else s' == low
  }

  /** The topology reports id below up: its entry is not lost any more, and keeps no timer when it is ready or its
      endpoint is available. Below the same upstream as before it is attempted again. Below another one it stays
      where it is as long as its proxy is still on its way up, and else leaves its proxy and gets a new place. */
  ghost predicate Reported(s: State, id: BusId, up: BusId, env: Env, s': State) {
    if id !in s.hs then s' == s
    else
      var h := s.hs[id];
      var found := h.(entry := h.entry.(upstream := up),
                      clock := h.clock.(lost := false, lostDeadline := 0, timer := if h.ready || Up(env, id) then 0 else h.clock.timer));
      var t := s.(hs := s.hs[id := found]);
      if h.entry.upstream == up then Reattempted(t, id, env, s')
      else if up != 0 && h.proxy != 0 && env.hasNode && h.proxy in env.chain(id) then s' == t
      else exists left: Table :: ProxyLeft(t.hs, s.stamps, id, env, left) && Rehomed(t.(hs := left), id, up, env, s')
  }

  lemma FreedMeans(hs: Table, id: BusId)
    requires Linked(hs, {}) && id in hs
    ensures Unhung(hs, id, Freed(hs, id))
  {
  }

  lemma LeftMeans(s: State, id: BusId, env: Env)
    requires Sound(s) && id in s.hs
    ensures ProxyLeft(s.hs, s.stamps, id, env, Left(s.hs, s.stamps, id, env))
  {
    hide Good, Swept, Removed, Moved, Unhung, Freed;
    SoundParts(s);
    var p := s.hs[id].proxy;
    if p != 0 {
      ProxyIsThere(s, id);
      var free := Freed(s.hs, id);
      FreedMeans(s.hs, id);
      MovedByFree(s.hs, s.next, id, env.conf.maxTry);
      KeptIsSound(s, s.(hs := free), env, false);
      SoundParts(s.(hs := free));
      UnhungKeys(s.hs, id, free);
      SweptMeans(free, s.stamps, p);
    }
  }

  lemma UnhungKeys(hs: Table, id: BusId, hs': Table)
    requires Unhung(hs, id, hs')
    ensures hs'.Keys == hs.Keys
  {
  }

  lemma JoinedMeans(s: State, id: BusId, up: BusId, env: Env)
    requires Sound(s) && id in s.hs && up in s.hs
    ensures var hung := Bound(s.hs, id, up); Rehung(s.hs, id, up, hung) && up in hung && Spread(hung, Joined(s.hs, id, up), id, hung[up].ready)
  {
    hide Good, SpreadTo, Spread, Rehung, Moved;
    SoundParts(s);
    RehungMeans(s.hs, id, up);
    MovedByBind(s.hs, s.next, id, up, 0);
    var t := s.(hs := Bound(s.hs, id, up));
    KeptIsSound(s, t, env.(conf := env.conf.(maxTry := 0)), up != id);
    SoundParts(t);
    SpreadMeans(t.hs, id, t.hs[up].ready);
  }

  lemma AwaitedMeans(s: State, id: BusId, env: Env)
    requires Sound(s) && id in s.hs && !s.hs[id].entry.waiting && !Up(env, id)
    ensures var h := s.hs[id];
      Spread(s.hs[id := h.(entry := h.entry.(waiting := !InLine(env, id) && h.proxy == 0))], UnreadySpread(Awaiting(s.hs, id, env), id), id, false)
  {
    hide Good, Awaiting, UnreadySpread, Spread, Moved;
    AwaitingMeans(s.hs, id, env);
    AwaitingKeeps(s, id, env);
    var t := s.(hs := Awaiting(s.hs, id, env));
    KeptIsSound(s, t, env, false);
    SoundParts(t);
    SpreadMeans(t.hs, id, false);
  }

  lemma RedialedMeans(s: State, id: BusId, env: Env)
    requires Sound(s) && id in s.hs && env.Sane()
    ensures var low, s' := Connect(s, id, s.hs[id].entry.app, s.hs[id].entry.active, env), Redialed(s, id, env);
      && Attempt(s, id, s.hs[id].entry.app, s.hs[id].entry.active, env, CodeOf(RouteOf(env, id, s.hs[id].entry.app, s.hs[id].entry.active)), low)
      && if id in low.hs && !low.hs[id].ready && low.hs[id].clock.nextReconnect <= env.now
         then s' == low.(hs := s'.hs) && TriedOnce(low.hs, low.stamps, id, 0, env, s'.hs)
         else s' == low
  {
    hide Attempt, Connect, RouteOf, Tried, TriedOnce, Moved, Linked, LostTimed, SerialsBelow, Binds;
    var app, active := s.hs[id].entry.app, s.hs[id].entry.active;
    var low := Connect(s, id, app, active, env);
    ConnectMeans(s, id, app, active, env);
    ConnectKeeps(s, id, app, active, env);
    KeptIsSound(s, low, env, Binds(RouteOf(env, id, app, active), id));
    SoundParts(low);
    if id in low.hs {
      TriedMeans(low.hs, low.stamps, id, 0, env);
    }
  }

  lemma ReroutedMeans(s: State, id: BusId, up: BusId, env: Env)
    requires Sound(s) && id in s.hs && env.Sane()
    ensures Rehomed(s, id, up, env, Rerouted(s, id, up, env))
  {
    hide Good, Spread, Swept, Rehung, Attempt, TriedOnce, Redialed, Joined, ReadySpread, UnreadySpread, Removed, Awaiting, Bound, Connect, RouteOf;
    hide Env.Sane, AppsUnique;
    SoundParts(s);
    if Up(env, id) {
      SpreadMeans(s.hs, id, true);
    } else if !Needed(s.hs[id], env) {
      SweptMeans(s.hs, s.stamps, id);
    } else if up != 0 && up in s.hs {
      JoinedMeans(s, id, up, env);
    } else if s.hs[id].entry.waiting {
      SpreadMeans(s.hs, id, false);
    } else if id !in env.discovery {
      AwaitedMeans(s, id, env);
    } else {
      RedialedMeans(s, id, env);
    }
  }

  lemma PlacedMeans(s: State, id: BusId, up: BusId, env: Env)
    requires Sound(s) && env.Sane()
    ensures Reported(s, id, up, env, Placed(s, id, up, env))
  {
    hide Good, Moved, Again, Left, Rerouted, Reattempted, ProxyLeft, Rehomed;
    if id in s.hs {
      var t := s.(hs := s.hs[id := Found(s.hs[id], id, up, env)]);
      FoundIsSound(s, id, up, env);
      AgainMeans(t, id, env);
      LeftMeans(t, id, env);
      LeftKeeps(t, id, env);
      var mid := t.(hs := Left(t.hs, t.stamps, id, env));
      KeptIsSound(t, mid, env, false);
      ReroutedMeans(mid, id, up, env);
    }
  }

  // ---------------------------------------------------------------- the other events

  /** A try is counted if one is due. */
  predicate TalliedIfDue(h: Handle, h': Handle, env: Env) {
    if h.clock.nextReconnect <= env.now then Tallied(h, h', 0, env) else h' == h
  }

  /** A neighbour or a remote peer is attempted again, or removed if that would be denied. */
  ghost predicate AdmittedAgain(s: State, id: BusId, env: Env, s': State) {
    id in s.hs &&
    var h, r := s.hs[id], env.relation(id);
    if !env.hasNode || !(r.SameUpstreamPeer? || r.OtherUpstreamPeer?) then s' == s
    else if !AtRest(h, id, env) && id in env.discovery && RouteIs(env, id, h.entry.app, false, Refused(TopologyDeny)) then
      s' == s.(hs := s'.hs) && Swept(s.hs, s.stamps, id, s'.hs)
    else Reattempted(s, id, env, s')
  }

  /** The endpoint of id is gone. An entry that nothing needs goes too, and so does one that has made all its tries
      when one is due. Another one has a try counted unless one is scheduled for later, and is then admitted
      again. Its readiness is not taken away. */
  ghost predicate EndpointGone(s: State, id: BusId, env: Env, s': State) {
    if id !in s.hs then s' == s
    else
      var h := s.hs[id];
      if !Needed(h, env) || (h.clock.nextReconnect <= env.now && Spent(h, env)) then
        s' == s.(hs := s'.hs) && Swept(s.hs, s.stamps, id, s'.hs)
      else exists h1: Handle :: TalliedIfDue(h, h1, env) && AdmittedAgain(s.(hs := s.hs[id := h1]), id, env, s')
  }

  /** When a lost entry has to go; 0 for one that is not lost. */
  function LostBy(c: Clock): Time {
    if c.lost then c.lostDeadline else 0
  }

  /** The timer of the entry of id that has this serial fires. Past the deadline of a lost entry, or when a try is
      due and all have been made, the entry is removed. With no try due the timer is armed for what comes first,
      the deadline or the next try. A try that is due is counted, and only then the entry is attempted. */
  ghost predicate TimerRang(s: State, id: BusId, serial: nat, env: Env, s': State) {
    if id !in s.hs || s.hs[id].entry.serial != serial then s' == s
    else
      var h := s.hs[id].(clock := s.hs[id].clock.(timer := 0));
      var c, t := h.clock, s.(hs := s.hs[id := h]);
      var wait := if c.lost && (h.ready || c.lostDeadline <= c.nextReconnect) then c.lostDeadline else if h.ready then 0 else c.nextReconnect;
      if c.lost && c.lostDeadline <= env.now then s' == t.(hs := s'.hs) && Swept(t.hs, t.stamps, id, s'.hs)
      else if h.ready || env.now < c.nextReconnect then s' == t.(hs := t.hs[id := h.(clock := c.(timer := wait))])
      else if Spent(h, env) then s' == t.(hs := s'.hs) && Swept(t.hs, t.stamps, id, s'.hs)
      else exists h1: Handle ::
        Tallied(h, h1, LostBy(c), env) && Reattempted(t.(hs := t.hs[id := h1]), id, env, s')
  }

  /** A connect request: the answer to the same request before is repeated, with no effect, until topology or
      discovery change; else the route is followed, and the entry that the handle is stamped with is in use. */
  ghost predicate Requested(s: State, id: BusId, app: AppRef, env: Env, s': State) {
    if s.last.bus != 0 && s.last.bus == id && s.last.app == Some(app) then s' == s
    else exists mid: State, code ::
      && Attempt(s, id, Some(app), true, env, code, mid)
      && s' == mid.(hs := s'.hs, last := Cache(id, Some(app), code))
      && if app in mid.stamps && mid.stamps[app] in mid.hs
         then var x := mid.stamps[app]; s'.hs == mid.hs[x := mid.hs[x].(entry := mid.hs[x].entry.(active := true))]
         else s'.hs == mid.hs
  }

  /** The entry that an application handle is stamped with, 0 when there is none. */
  function HolderOf(s: State, app: AppRef): BusId {
    if app in s.stamps && s.stamps[app] in s.hs then s.stamps[app] else 0
  }

  /** What each event does to the state. */
  ghost predicate Obeys(s: State, e: Event, s': State) {
    var env, s0 := e.env, s.(last := s.last.(bus := 0, app := None));
    match e.what
    case StartConnect(id, app) =>
      if exists x :: x in s.hs && x != id && s.hs[x].entry.app == Some(app) then s' == s else Requested(s, id, app, env, s')
    case Close(app) =>
      var x := HolderOf(s, app);
      if x in s.hs && s.hs[x].entry.app == Some(app)
      then s' == s.(hs := s'.hs) && exists low: Table :: Spread(s.hs, low, x, false) && Swept(low, s.stamps, x, s'.hs)
      else s' == s
    case SendFailed(app) =>
      var x := HolderOf(s, app);
      if x in s.hs then s' == s.(hs := s'.hs) && Spread(s.hs, s'.hs, x, false) else s' == s
    case EndpointUpdated(id, res) =>
      if id in s.hs && res >= 0 && Up(env, id) then s' == s.(hs := s'.hs) && Spread(s.hs, s'.hs, id, true) else s' == s
    case EndpointRemoved(id) => EndpointGone(s, id, env, s')
    case PeerUpdated(id, up) => Reported(s0, id, up, env, s')
    case PeerRemoved(id) =>
      if id !in s.hs || s.hs[id].clock.lost then s' == s0
      else
        var h := s.hs[id];
        var deadline := env.now + if env.conf.lostTimeout <= 0 then 120_000_000 else env.conf.lostTimeout;
        s' == s0.(hs := s.hs[id := h.(clock := h.clock.(lost := true, lostDeadline := deadline,
                                        timer := if 0 < h.clock.timer <= deadline then h.clock.timer else deadline))])
    case DiscoveryPut(id) =>
      if id in s.hs && s.hs[id].entry.waiting
      then Reattempted(s0.(hs := s.hs[id := s.hs[id].(entry := s.hs[id].entry.(waiting := false))]), id, env, s')
      else s' == s0
    case DiscoveryDeleted(id) =>
      if id in s.hs && !InLine(env, id) && s.hs[id].proxy == 0 && !Up(env, id)
      then s' == s0.(hs := s.hs[id := s.hs[id].(entry := s.hs[id].entry.(waiting := true))])
      else s' == s0
    case TimerFired(id, serial) => TimerRang(s, id, serial, env, s')
  }

  lemma StartedMeans(s: State, id: BusId, app: AppRef, env: Env)
    requires Sound(s) && AppFree(s.hs, id, Some(app)) && env.Sane()
    ensures Requested(s, id, app, env, Started(s, id, app, env))
  {
    hide Good, Moved, Attempt, Connect, RouteOf, AppFree, Binds;
    var mid := Connect(s, id, Some(app), true, env);
    ConnectMeans(s, id, Some(app), true, env);
    ConnectKeeps(s, id, Some(app), true, env);
    KeptIsSound(s, mid, env, Binds(RouteOf(env, id, Some(app), true), id));
    NoEntryForZero(mid);
  }

  lemma NoEntryForZero(s: State)
    requires Sound(s)
    ensures 0 !in s.hs
  {
  }

  lemma ClosedMeans(s: State, app: AppRef, env: Env)
    requires Sound(s)
    ensures var x, hs' := HolderOf(s, app), ClosedBy(s.hs, s.stamps, app);
      if x in s.hs && s.hs[x].entry.app == Some(app)
      then exists low: Table :: Spread(s.hs, low, x, false) && Swept(low, s.stamps, x, hs')
      else hs' == s.hs
  {
    hide Good, Moved, Spread, Swept, UnreadySpread, Removed;
    NoEntryForZero(s);
    SoundParts(s);
    var x := HolderOf(s, app);
    if x in s.hs {
      var low := s.(hs := UnreadySpread(s.hs, x));
      SpreadMeans(s.hs, x, false);
      SpreadKeeps(s, x, false, env);
      KeptIsSound(s, low, env, false);
      SoundParts(low);
      SpreadKeys(s.hs, x, false);
      SweptMeans(low.hs, s.stamps, x);
    }
  }

  /** An attempt is denied if and only if nothing else keeps it from being made and its route is refused so. */
  lemma DeniedMeans(h: Handle, id: BusId, env: Env)
    ensures AgainCode(h, id, env) == TopologyDeny <==>
      !AtRest(h, id, env) && id in env.discovery && RouteIs(env, id, h.entry.app, false, Refused(TopologyDeny))
  {
    hide RouteIs, RouteOf;
    RouteMeans(env, id, h.entry.app, false);
    if RouteIs(env, id, h.entry.app, false, Refused(TopologyDeny)) {
      RouteIsUnique(env, id, h.entry.app, false, Refused(TopologyDeny));
    }
  }

  lemma ReadmittedMeans(s: State, id: BusId, env: Env)
    requires Sound(s) && id in s.hs
    ensures AdmittedAgain(s, id, env, Readmitted(s, id, env))
  {
    hide Good, Again, Removed, Swept, Reattempted, RouteIs, AgainCode, AtRest;
    SoundParts(s);
    AgainMeans(s, id, env);
    SweptMeans(s.hs, s.stamps, id);
    DeniedMeans(s.hs[id], id, env);
  }

  lemma ScheduledMeans(hs: Table, id: BusId, env: Env)
    requires id in hs
    ensures var hs' := Scheduled(hs, id, env); id in hs' && hs' == hs[id := hs'[id]] && TalliedIfDue(hs[id], hs'[id], env)
  {
    hide Backoff.Interval;
    assert hs[id := hs[id]] == hs;
  }

  lemma DroppedMeans(s: State, id: BusId, env: Env)
    requires Sound(s) && env.Sane()
    ensures EndpointGone(s, id, env, Dropped(s, id, env))
  {
    hide Good, Moved, Removed, Swept, Readmitted, AdmittedAgain, Scheduled, TalliedIfDue;
    if id in s.hs {
      var h := s.hs[id];
      SoundParts(s);
      SweptMeans(s.hs, s.stamps, id);
      if Needed(h, env) && !(h.clock.nextReconnect <= env.now && Spent(h, env)) {
        var t := s.(hs := Scheduled(s.hs, id, env));
        ScheduledKeeps(s, id, env);
        KeptIsSound(s, t, env, false);
        ScheduledMeans(s.hs, id, env);
        ReadmittedMeans(t, id, env);
      }
    }
  }

  lemma CountedMeans(hs: Table, id: BusId, env: Env)
    requires id in hs
    ensures var c, hs' := hs[id].clock, Counted(hs, id, DeadlineOf(hs[id].clock), env);
      id in hs' && hs' == hs[id := hs'[id]] && Tallied(hs[id], hs'[id], LostBy(c), env)
  {
    hide Backoff.Interval;
  }

  lemma TickedMeans(s: State, id: BusId, serial: nat, env: Env)
    requires Sound(s) && env.Sane()
    ensures TimerRang(s, id, serial, env, Ticked(s, id, serial, env))
  {
    hide Good, GoodBut, Moved, Again, Removed, Swept, Reattempted, Counted, Tallied;
    if id in s.hs {
      var h := Silenced(s.hs[id]);
      var t := s.(hs := s.hs[id := h]);
      SilencedIsGoodBut(s, id);
      GoodButParts(t, id);
      SweptMeans(t.hs, t.stamps, id);
      if Due(h, env) && !OutOfTries(h.clock, env.conf) && (h.clock.lost ==> env.now < h.clock.lostDeadline) {
        CountedKeeps(t, id, DeadlineOf(h.clock), env);
        var low := t.(hs := Counted(t.hs, id, DeadlineOf(h.clock), env));
        KeptIsSound(t, low, env, false);
        CountedMeans(t.hs, id, env);
        AgainMeans(low, id, env);
      }
    }
  }

  lemma GoodButParts(s: State, id: BusId)
    requires GoodBut(s.hs, s.next, id)
    ensures Linked(s.hs, {})
  {
  }

  /** Every event of the machine does what is written down here. */
  lemma NextObeys(s: State, e: Event)
    requires Sound(s) && e.env.Sane()
    ensures Obeys(s, e, Next(s, e))
  {
    hide Good, Moved, Requested, EndpointGone, Reported, TimerRang, Spread, Swept, Reattempted, Env.Sane;
    hide Started, ClosedBy, ReadySpread, UnreadySpread, Dropped, Placed, Again, Ticked;
    SoundParts(s);
    NoEntryForZero(s);
    match e.what
    case StartConnect(id, app) => if AppFree(s.hs, id, Some(app)) { StartedMeans(s, id, app, e.env); }
    case Close(app) => ClosedMeans(s, app, e.env);
    case SendFailed(app) => if HolderOf(s, app) in s.hs { SpreadMeans(s.hs, HolderOf(s, app), false); }
    case EndpointUpdated(id, _) => if id in s.hs { SpreadMeans(s.hs, id, true); }
    case EndpointRemoved(id) => DroppedMeans(s, id, e.env);
    case PeerUpdated(id, up) => PlacedMeans(Forgot(s), id, up, e.env);
    case PeerRemoved(id) => LostMeans(s, id, e.env);
    case DiscoveryPut(id) => DiscoveredMeans(Forgot(s), id, e.env);
    case DiscoveryDeleted(id) => if id in s.hs { AwaitingEvent(s.hs, id, e.env); }
    case TimerFired(id, serial) => TickedMeans(s, id, serial, e.env);
  }

  lemma LostMeans(s: State, id: BusId, env: Env)
    ensures Obeys(s, Event(PeerRemoved(id), env), Next(s, Event(PeerRemoved(id), env)))
  {
    assert id in s.hs ==> s.hs[id].(clock := s.hs[id].clock) == s.hs[id];
    assert id in s.hs ==> s.hs[id := s.hs[id]] == s.hs;
  }

  lemma DiscoveredMeans(s: State, id: BusId, env: Env)
    requires Sound(s) && env.Sane()
    ensures var h := if id in s.hs then s.hs[id].(entry := s.hs[id].entry.(waiting := false)) else NewEntry(0, id, None, env);
      if id in s.hs && s.hs[id].entry.waiting then Reattempted(s.(hs := s.hs[id := h]), id, env, Discovered(s, id, env)) else Discovered(s, id, env) == s
  {
    hide SameClocks, RetryWithin, NoNewLinks, Linked, Again, Reattempted;
    if id in s.hs {
      var h := s.hs[id];
      var mid := s.(hs := s.hs[id := h.(entry := h.entry.(waiting := false))]);
      MovedByEntry(s.hs, s.next, id, h.entry.(waiting := false), h.clock, env.conf.maxTry);
      assert h.(entry := h.entry.(waiting := false), clock := h.clock) == h.(entry := h.entry.(waiting := false));
      AgainMeans(mid, id, env);
    }
  }

  lemma AwaitingEvent(hs: Table, id: BusId, env: Env)
    requires id in hs
    ensures Awaiting(hs, id, env) ==
      if !InLine(env, id) && hs[id].proxy == 0 && !Up(env, id) then hs[id := hs[id].(entry := hs[id].entry.(waiting := true))] else hs
  {
  }

  /** Every step of every run does. */
  lemma {:induction false} RunObeys(s: State, events: seq<Event>)
    requires Sound(s) && forall e :: e in events ==> e.env.Sane()
    ensures Sound(RunOf(s, events))
    ensures forall i :: 0 <= i < |events| ==> Obeys(RunOf(s, events[..i]), events[i], RunOf(s, events[..i + 1]))
    decreases |events|
  {
    hide Good, Obeys, Next, Env.Sane;
    if events != [] {
      var front, e := events[..|events| - 1], events[|events| - 1];
      assert e in events && forall x :: x in front ==> x in events;
      RunObeys(s, front);
      NextObeys(RunOf(s, front), e);
      NextKeeps(RunOf(s, front), e);
      SteppedSound(RunOf(s, front), e);
      forall i | 0 <= i < |events| ensures Obeys(RunOf(s, events[..i]), events[i], RunOf(s, events[..i + 1])) {
        assert i < |front| ==> events[..i] == front[..i] && events[..i + 1] == front[..i + 1] && events[i] == front[i];
        assert i == |front| ==> events[..i] == front && events[..i + 1] == events;
      }
    }
  }

  lemma SteppedSound(s: State, e: Event)
    requires Steps(s, Next(s, e), e.env)
    ensures Sound(Next(s, e))
  {
  }

  /** A peer that the topology moves off its path, in plain words: with an endpoint it is ready and proxied by
      nobody; when nothing needs it it is gone; with an entry for its new upstream it is proxied by that and as
      ready as that; with none, and no discovery data, it is unready, proxied by nobody, and waits. What is left
      open for this node itself is what goes with its old proxy. */
  lemma PeerMoved(s: State, id: BusId, up: BusId, env: Env)
    requires Sound(s) && env.Sane() && id in s.hs && s.hs[id].entry.upstream != up
    requires !(up != 0 && s.hs[id].proxy != 0 && env.hasNode && s.hs[id].proxy in env.chain(id))
    ensures var h, t := s.hs[id], Next(s, Event(PeerUpdated(id, up), env)).hs;
      var needed := h.entry.active || h.proxyFor != {} || (h.entry.app.Some? && h.entry.app.value in env.pendingApps);
      var mine := id == env.self && h.proxy != 0;
      && (Up(env, id) ==> id in t && t[id].ready && t[id].proxy == 0)
      && (!Up(env, id) && !needed ==> id !in t)
      && (!Up(env, id) && needed && !mine && up != 0 && up in s.hs ==>
            id in t && up in t && t[id].ready == s.hs[up].ready && t[id].proxy == if up == id then 0 else up)
      && (!Up(env, id) && needed && !mine && (up == 0 || up !in s.hs) && (h.entry.waiting || id !in env.discovery) ==>
            id in t && !t[id].ready && t[id].proxy == 0 && (t[id].entry.waiting <==> h.entry.waiting || !InLine(env, id)))
  {
    hide Good, Placed, Env.Sane, Rehomed, ProxyLeft;
    PlacedMeans(Forgot(s), id, up, env);
    SoundParts(s);
    ProxyFound(s, id);
    var h := s.hs[id];
    var found := h.(entry := h.entry.(upstream := up),
                    clock := h.clock.(lost := false, lostDeadline := 0, timer := if h.ready || Up(env, id) then 0 else h.clock.timer));
    var hs, s' := s.hs[id := found], Placed(Forgot(s), id, up, env);
    var left: Table :| ProxyLeft(hs, s.stamps, id, env, left) && Rehomed(Forgot(s).(hs := left), id, up, env, s');
    RehomedEntry(Forgot(s).(hs := left), id, up, env, s');
    LeftEntry(hs, s.stamps, id, env, left);
  }

  lemma RehomedEntry(s: State, id: BusId, up: BusId, env: Env, s': State)
    requires Rehomed(s, id, up, env, s')
    ensures id in s.hs
    ensures var h, t := s.hs[id], s'.hs;
      && (Up(env, id) ==> id in t && t[id].ready && t[id].proxy == h.proxy)
      && (!Up(env, id) && !Needed(h, env) ==> id !in t)
      && (!Up(env, id) && Needed(h, env) && up != 0 && up in s.hs ==>
            id in t && up in t && t[id].ready == s.hs[up].ready && t[id].proxy == if up == id then h.proxy else up)
      && (!Up(env, id) && Needed(h, env) && (up == 0 || up !in s.hs) && (h.entry.waiting || id !in env.discovery) ==>
            id in t && !t[id].ready && t[id].proxy == h.proxy && (t[id].entry.waiting <==> h.entry.waiting || (!InLine(env, id) && h.proxy == 0)))
  {
    hide Attempt, TriedOnce, Swept, Spread, Rehung;
    if Up(env, id) {
      SpreadEntry(s.hs, s'.hs, id, true);
    } else if !Needed(s.hs[id], env) {
      SweptIsGone(s.hs, s.stamps, id, s'.hs);
    } else if up != 0 && up in s.hs {
      var hung: Table :| Rehung(s.hs, id, up, hung) && up in hung && Spread(hung, s'.hs, id, hung[up].ready);
      SpreadEntry(hung, s'.hs, id, hung[up].ready);
      RehungEntry(s.hs, id, up, hung);
    } else if s.hs[id].entry.waiting {
      SpreadEntry(s.hs, s'.hs, id, false);
    } else if id !in env.discovery {
      var h := s.hs[id];
      SpreadEntry(s.hs[id := h.(entry := h.entry.(waiting := !InLine(env, id) && h.proxy == 0))], s'.hs, id, false);
    }
  }

  lemma SpreadEntry(hs: Table, hs': Table, id: BusId, ready: bool)
    requires Spread(hs, hs', id, ready)
    ensures id in hs && hs'.Keys == hs.Keys && hs'[id].ready == ready && hs'[id].proxy == hs[id].proxy && hs'[id].entry == hs[id].entry
  {
  }

  lemma RehungEntry(hs: Table, id: BusId, p: BusId, hs': Table)
    requires Rehung(hs, id, p, hs')
    ensures hs'.Keys == hs.Keys && id in hs && p in hs && hs'[id].proxy == (if p == id then hs[id].proxy else p) && hs'[p].ready == hs[p].ready
  {
  }

  lemma ProxyFound(s: State, id: BusId)
    requires Sound(s) && id in s.hs
    ensures 0 !in s.hs && s.hs[id].proxy != id && id !in s.hs[id].proxyFor
  {
  }

  lemma LeftEntry(hs: Table, stamps: Stamps, id: BusId, env: Env, left: Table)
    requires ProxyLeft(hs, stamps, id, env, left) && hs[id].proxy != id && id in left
    ensures left[id].proxy == 0 && left[id].entry == hs[id].entry && left[id].proxyFor <= hs[id].proxyFor
    ensures !(id == env.self && hs[id].proxy != 0) ==>
      left.Keys == hs.Keys && left[id] == hs[id].(proxy := 0) && forall x :: x in hs ==> left[x].ready == hs[x].ready
  {
  }
}
