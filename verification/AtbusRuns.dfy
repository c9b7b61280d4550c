/** Runs of the atbus connector, from the empty table, that end where a reader might not expect. */
module AtbusRuns {
  import opened Common
  import opened Reachability
  import opened AtbusTable
  import opened AtbusRoutes
  import opened AtbusMachine
  import opened AtbusOutcomes

  // ---------------------------------------------------------------- a due try

  /** An entry that has the flag already spreads nothing. */
  lemma SpreadNothing(hs: Table, id: BusId, ready: bool)
    requires id in hs && hs[id].ready == ready
    ensures SpreadTo(hs, id, ready) == hs
  {
    FlipsNothing(hs, id, ready);
  }

  /** Every peer is known to the topology and to discovery and has an address; nobody is connected. */
  function Field(now: Time, relation: Relation): Env {
    Env(now, Config(0, 0, 0, 0), true, 9, 0, {}, {}, _ => relation, x => if x > 0 then x - 1 else 0, x => if x == 0 then [] else [x],
        {1, 2, 3}, {1, 2, 3}, {1, 2, 3}, true, false, {})
  }

  lemma FieldIsSane(now: Time, relation: Relation)
    requires now > 0
    ensures Field(now, relation).Sane()
  {
    assert forall x: BusId :: Field(now, relation).chain(x) == if x == 0 then [] else [x];
  }

  lemma RunOfFour(a: Event, b: Event, c: Event, d: Event)
    ensures RunOf(Init, [a]) == Next(Init, a)
    ensures RunOf(Init, [a, b]) == Next(RunOf(Init, [a]), b)
    ensures RunOf(Init, [a, b, c]) == Next(RunOf(Init, [a, b]), c)
    ensures RunOf(Init, [a, b, c, d]) == Next(RunOf(Init, [a, b, c]), d)
  {
    hide Next;
    assert [] + [a] == [a] && [a] + [b] == [a, b] && [a, b] + [c] == [a, b, c] && [a, b, c] + [d] == [a, b, c, d];
    RunOfMore(Init, [], a);
    RunOfMore(Init, [a], b);
    RunOfMore(Init, [a, b], c);
    RunOfMore(Init, [a, b, c], d);
  }

  lemma NextIsStarted(s: State, id: BusId, app: AppRef, env: Env)
    requires forall x :: x in s.hs ==> s.hs[x].entry.app != Some(app)
    ensures Next(s, Event(StartConnect(id, app), env)) == Started(s, id, app, env)
  {
    hide Started;
  }

  lemma NextIsPlaced(s: State, id: BusId, up: BusId, env: Env)
    ensures Next(s, Event(PeerUpdated(id, up), env)) == Placed(Forgot(s), id, up, env)
  {
    hide Placed;
  }

  /** The entry of a target that has been asked for and dialed at time 1. */
  function Dialing(retry: nat, next: Time, timer: Time, active: bool): Handle {
    Handle(Entry(0, Some(5), active, false, 0), Clock(retry, next, false, 0, timer), false, 0, {})
  }

  lemma RouteToOne(now: Time, allowProxy: bool)
    ensures RouteOf(Field(now, OtherUpstreamPeer), 1, Some(5), allowProxy) == Through(1)
  {
    assert Hops(Field(now, OtherUpstreamPeer), 1) == [1];
  }

  lemma FirstRequest()
    ensures Started(Init, 1, 5, Field(1, OtherUpstreamPeer)) ==
      State(map[1 := Dialing(1, 8_000_001, 8_000_001, true)], map[5 := 1], 1, [1], Cache(1, Some(5), Success))
  {
    hide Attached, RouteOf;
    var env := Field(1, OtherUpstreamPeer);
    RouteToOne(1, true);
    FirstAttached(env);
    var t := Attached(Init, 1, 1, Some(5), env);
    assert Counted(t.hs, 1, 0, env) == map[1 := Dialing(1, 8_000_001, 8_000_001, false)];
  }

  lemma FirstAttached(env: Env)
    requires env == Field(1, OtherUpstreamPeer)
    ensures Attached(Init, 1, 1, Some(5), env) == State(map[1 := Dialing(0, 0, 0, false)], map[5 := 1], 1, [], Init.last)
  {
    var t := Ensure(Init, 1, Some(5), env);
    assert t.hs == map[1 := Dialing(0, 0, 0, false)];
    SpreadNothing(t.hs, 1, false);
  }

  /** A connect attempt for an entry that has a try due and left. */
  lemma AttemptWhenDue(s: State, env: Env)
    requires env == Field(8_000_001, OtherUpstreamPeer) && s.hs == map[1 := Dialing(1, 8_000_001, 8_000_001, true)]
    ensures Connect(s, 1, Some(5), false, env).dials == s.dials + [1]
  {
    RouteToOne(8_000_001, false);
    assert Sound(s.(next := 1));
    FollowDials(s.(next := 1), Through(1), 1, Some(5), env);
    SpreadNothing(s.hs, 1, false);
  }

  lemma FirstFiring(s: State, env: Env)
    requires env == Field(8_000_001, OtherUpstreamPeer) && s.hs == map[1 := Dialing(1, 8_000_001, 8_000_001, true)]
    ensures Ticked(s, 1, 0, env).hs == map[1 := Dialing(2, 24_000_001, 24_000_001, true)]
  {
    RouteToOne(8_000_001, false);
    var mid := s.(hs := s.hs[1 := Silenced(s.hs[1])]);
    assert Pow2(1) == 2;
    var low := mid.(hs := Counted(mid.hs, 1, 0, env));
    assert low.hs == map[1 := Dialing(2, 24_000_001, 24_000_001, true)];
    SpreadNothing(low.hs, 1, false);
    assert Ensure(low, 1, Some(5), env) == low;
    assert Attached(low, 1, 1, Some(5), env) == low;
  }

  /** A connect request starts a connection. When its timer fires, the next try is due and allowed and
      its route leads to the target, so that a connect attempt made just then would start another one.
      The firing counts the try and starts nothing. */
  lemma DueTryIsOnlyCounted() returns (request: Event, firing: Event)
    ensures request.env.Sane() && firing.env.Sane()
    ensures var s, t := RunOf(Init, [request]), RunOf(Init, [request, firing]);
      && s.dials == [1] && 1 in s.hs && Due(s.hs[1], firing.env) && !OutOfTries(s.hs[1].clock, firing.env.conf)
      && firing.what == TimerFired(1, s.hs[1].entry.serial)
      && Connect(s, 1, s.hs[1].entry.app, false, firing.env).dials == [1, 1]
      && t.dials == [1] && 1 in t.hs && t.hs[1].clock.retry == s.hs[1].clock.retry + 1 == 2
  {
    hide Started, Ticked, Connect, Field;
    var e1, e2 := Field(1, OtherUpstreamPeer), Field(8_000_001, OtherUpstreamPeer);
    FieldIsSane(1, OtherUpstreamPeer);
    FieldIsSane(8_000_001, OtherUpstreamPeer);
    request, firing := Event(StartConnect(1, 5), e1), Event(TimerFired(1, 0), e2);
    RunOfMore(Init, [], request);
    RunOfMore(Init, [request], firing);
    assert [] + [request] == [request] && [request] + [firing] == [request, firing];
    FirstRequest();
    var s := RunOf(Init, [request]);
    AttemptWhenDue(s, e2);
    FirstFiring(s, e2);
    FieldConfig(8_000_001, OtherUpstreamPeer);
    EveryRun([request], 0);
    TimerNeverDials(s, 1, 0, e2);
  }

  lemma FieldConfig(now: Time, relation: Relation)
    ensures Field(now, relation).conf == Config(0, 0, 0, 0) && Field(now, relation).now == now
  {
  }

  // ---------------------------------------------------------------- an unstamped handle

  function Member(serial: nat, app: Option<AppRef>, active: bool, clock: Clock, proxy: BusId, proxyFor: set<BusId>): Handle {
    Handle(Entry(serial, app, active, false, 0), clock, false, proxy, proxyFor)
  }

  const Still: Clock := Clock(0, 0, false, 0, 0)

  /** Handle 8 asks for peer 3 over peer 2, which gets an entry without a handle. */
  lemma FirstHopMade()
    ensures Started(Init, 3, 8, Field(1, TransitiveDownstream)) ==
      State(map[2 := Member(0, None, false, Still, 0, {3}), 3 := Member(1, Some(8), true, Still, 2, {})], map[8 := 3], 2, [],
            Cache(3, Some(8), Success))
  {
    hide Follow, Field, RouteOf;
    var env := Field(1, TransitiveDownstream);
    RelayRoute(3, 8);
    FirstHopOpened(env);
    var t := Open(Init, 3, 2, Some(8), true, env);
    RelayedIdle(Init, 3, 2, Some(8), env);
    assert Activated(t.hs, 3) == map[2 := Member(0, None, false, Still, 0, {3}), 3 := Member(1, Some(8), true, Still, 2, {})];
  }

  lemma RelayRoute(id: BusId, app: AppRef)
    requires id == 2 || id == 3
    ensures RouteOf(Field(1, TransitiveDownstream), id, Some(app), true) == Forwarded(id - 1)
  {
  }

  lemma FirstHopOpened(env: Env)
    requires env == Field(1, TransitiveDownstream)
    ensures Open(Init, 3, 2, Some(8), true, env) ==
      State(map[2 := Member(0, None, false, Still, 0, {3}), 3 := Member(1, Some(8), false, Still, 2, {})], map[8 := 3], 2, [], Init.last)
  {
    var a := Ensure(Init, 2, None, env);
    assert a.hs == map[2 := Member(0, None, false, Still, 0, {})];
    var b := Ensure(a, 3, Some(8), env);
    assert b.hs == map[2 := Member(0, None, false, Still, 0, {}), 3 := Member(1, Some(8), false, Still, 0, {})];
    assert b.hs[2].proxyFor + {3} == {3};
    assert Bound(b.hs, 3, 2) == map[2 := Member(0, None, false, Still, 0, {3}), 3 := Member(1, Some(8), false, Still, 2, {})];
  }

  /** Where nobody is connected, a forwarded target that is not ready changes no readiness. */
  lemma RelayedIdle(s: State, id: BusId, p: BusId, app: Option<AppRef>, env: Env)
    requires env == Field(1, TransitiveDownstream) && !Open(s, id, p, app, true, env).hs[id].ready
    ensures Follow(s, Forwarded(p), id, app, env) == Open(s, id, p, app, true, env)
  {
    hide Open;
    SpreadNothing(Open(s, id, p, app, true, env).hs, id, false);
  }

  /** Handle 7 then asks for peer 2 over peer 1 and is attached to the entry that is there. */
  lemma HopAskedFor(s: State)
    requires s.hs == map[2 := Member(0, None, false, Still, 0, {3}), 3 := Member(1, Some(8), true, Still, 2, {})]
    requires s.stamps == map[8 := 3] && s.next == 2 && s.last.bus == 3
    ensures var t := Started(s, 2, 7, Field(1, TransitiveDownstream));
      && t.hs == map[1 := Member(2, None, false, Still, 0, {2}), 2 := Member(0, Some(7), false, Still, 1, {3}),
                     3 := Member(1, Some(8), true, Still, 2, {})]
      && t.stamps == s.stamps
  {
    hide Follow, Field, RouteOf, Open;
    var env := Field(1, TransitiveDownstream);
    RelayRoute(2, 7);
    SecondHopOpened(s, env);
    RelayedIdle(s, 2, 1, Some(7), env);
  }

  lemma SecondHopOpened(s: State, env: Env)
    requires env == Field(1, TransitiveDownstream) && s.next == 2
    requires s.hs == map[2 := Member(0, None, false, Still, 0, {3}), 3 := Member(1, Some(8), true, Still, 2, {})]
    ensures var t := Open(s, 2, 1, Some(7), true, env);
      && t.hs == map[1 := Member(2, None, false, Still, 0, {2}), 2 := Member(0, Some(7), false, Still, 1, {3}),
                     3 := Member(1, Some(8), true, Still, 2, {})]
      && t.stamps == s.stamps
  {
    var a := Ensure(s, 1, None, env);
    assert a.hs == s.hs[1 := Member(2, None, false, Still, 0, {})];
    var b := Ensure(a, 2, Some(7), env);
    assert b.hs == a.hs[2 := Member(0, Some(7), false, Still, 0, {3})];
    assert b.hs[1].proxyFor + {2} == {2};
  }

  /** A run in which an entry outlives the one that proxies it, because its application handle was
      attached to it without being stamped: removing peer 1, lost for too long, leaves peer 2. */
  lemma UnstampedChildSurvives() returns (events: seq<Event>, firing: Event)
    ensures firing.env.Sane() && forall e :: e in events ==> e.env.Sane()
    ensures var s, t := RunOf(Init, events), RunOf(Init, events + [firing]);
      && 1 in s.hs && 2 in s.hs && firing.what == TimerFired(1, s.hs[1].entry.serial)
      && 2 in Below(s.hs, 1) && !Closable(s.hs, s.stamps, 2)
      && 1 !in t.hs && 2 in t.hs
  {
    hide Started, Field, Ticked, Below, Removed, Next, RunOf, Good, Closable;
    var env := Field(1, TransitiveDownstream);
    FieldIsSane(1, TransitiveDownstream);
    FieldIsSane(120_000_001, TransitiveDownstream);
    var e1, e2, e3 := Event(StartConnect(3, 8), env), Event(StartConnect(2, 7), env), Event(PeerRemoved(1), env);
    events, firing := [e1, e2, e3], Event(TimerFired(1, 2), Field(120_000_001, TransitiveDownstream));
    RunOfFour(e1, e2, e3, firing);
    assert events + [firing] == [e1, e2, e3, firing];
    NextIsStarted(Init, 3, 8, env);
    FirstHopMade();
    NextIsStarted(RunOf(Init, [e1]), 2, 7, env);
    HopAskedFor(RunOf(Init, [e1]));
    EveryRun(events, 0);
    HopIsLost(RunOf(Init, [e1, e2]));
    NextIsTicked(RunOf(Init, events), 1, 2, firing.env);
    LostPeerFires(RunOf(Init, events), firing.env);
  }

  lemma NextIsTicked(s: State, id: BusId, serial: nat, env: Env)
    ensures Next(s, Event(TimerFired(id, serial), env)) == Ticked(s, id, serial, env)
  {
    hide Ticked;
  }

  lemma HopIsLost(s: State)
    requires 1 in s.hs && 2 in s.hs && !s.hs[1].clock.lost
    ensures var t := Next(s, Event(PeerRemoved(1), Field(1, TransitiveDownstream)));
      && t.stamps == s.stamps && 1 in t.hs && 2 in t.hs && t.hs[2] == s.hs[2]
      && t.hs[1] == s.hs[1].(clock := t.hs[1].clock) && t.hs[1].clock.lost && t.hs[1].clock.lostDeadline == 120_000_001
  {
  }

  lemma LostPeerFires(s: State, late: Env)
    requires Sound(s) && late == Field(120_000_001, TransitiveDownstream)
    requires 1 in s.hs && 2 in s.hs && s.hs[1].entry.serial == 2 && s.hs[1].clock.lost && s.hs[1].clock.lostDeadline == 120_000_001
    requires s.hs[1].proxyFor == {2} && s.hs[2].entry.app == Some(7) && StampOf(s.stamps, 7) != 2
    ensures 2 in Below(s.hs, 1) && !Closable(s.hs, s.stamps, 2)
    ensures 1 !in Ticked(s, 1, 2, late).hs && 2 in Ticked(s, 1, 2, late).hs
  {
    hide Good, Linked, Removed;
    FiringRemoves(s, 1, 2, late);
    ReachesSelf(Down(s.hs), s.hs.Keys, 1);
    ReachesStep(Down(s.hs), s.hs.Keys, 1, 1, 2);
    SilencedIsGoodBut(s, 1);
    KeptChildStaysReady(s.hs[1 := Silenced(s.hs[1])], s.stamps, 1, 2);
  }

  // ---------------------------------------------------------------- a cycle of links

  /** A second target is asked for while the first is being dialed. */
  lemma SecondRequest(s: State)
    requires s.hs == map[1 := Dialing(1, 8_000_001, 8_000_001, true)] && s.stamps == map[5 := 1] && s.next == 1 && s.last.bus == 1
    ensures var t := Started(s, 2, 6, Field(1, OtherUpstreamPeer));
      t.hs == s.hs[2 := Handle(Entry(1, Some(6), true, false, 0), Clock(1, 8_000_001, false, 0, 8_000_001), false, 0, {})]
  {
    var env := Field(1, OtherUpstreamPeer);
    assert Hops(env, 2) == [2];
    assert RouteOf(env, 2, Some(6), true) == Through(2);
    SecondAttached(s, env);
    hide Attached, RouteOf;
    var t := Attached(s, 2, 2, Some(6), env);
    assert Counted(t.hs, 2, 0, env)[2].clock == Clock(1, 8_000_001, false, 0, 8_000_001);
    assert Woken(t, 2, env).hs == Counted(t.hs, 2, 0, env);
  }

  lemma SecondAttached(s: State, env: Env)
    requires env == Field(1, OtherUpstreamPeer) && s.next == 1 && 2 !in s.hs
    ensures var t := Attached(s, 2, 2, Some(6), env);
      t.hs == s.hs[2 := Handle(Entry(1, Some(6), false, false, 0), Still, false, 0, {})] && t.stamps == s.stamps[6 := 2]
  {
    var t := Ensure(s, 2, Some(6), env);
    assert t.hs == s.hs[2 := Handle(Entry(1, Some(6), false, false, 0), Still, false, 0, {})];
    SpreadNothing(t.hs, 2, false);
  }

  /** The topology puts id below up, which has an entry that is not ready either. */
  lemma PlacedBelow(s: State, id: BusId, up: BusId, env: Env)
    requires Sound(s) && id in s.hs && up in s.hs && id != up && up != 0 && env.endpoints == {}
    requires s.hs[id].entry.upstream != up && s.hs[id].proxy == 0 && s.hs[id].entry.active && !s.hs[id].ready && !s.hs[up].ready
    ensures var t := Placed(s, id, up, env);
      && t.hs.Keys == s.hs.Keys && t.hs[id].proxy == up && !t.hs[id].ready && t.next == s.next
      && (forall x :: x in s.hs && x != id ==> t.hs[x] == s.hs[x].(proxyFor := t.hs[x].proxyFor))
  {
    hide Good, Linked;
    NoSelfProxy(s, id);
    var found := s.hs[id := Found(s.hs[id], id, up, env)];
    var bound := Bound(found, id, up);
    forall x | x in s.hs
      ensures bound[x].proxy == (if x == id then up else found[x].proxy)
      ensures bound[x] == found[x].(proxy := bound[x].proxy, proxyFor := bound[x].proxyFor)
    {
      BoundPointwise(found, id, up, x);
    }
    BoundPointwise(found, id, up, id);
    SpreadNothing(bound, id, false);
  }

  /** Topology updates can tie links into a cycle: a run after which two entries proxy each other. */
  lemma LinksCanCycle() returns (events: seq<Event>)
    ensures forall e :: e in events ==> e.env.Sane()
    ensures var hs := RunOf(Init, events).hs; 1 in hs && 2 in hs && hs[1].proxy == 2 && hs[2].proxy == 1
  {
    hide Started, Field, Placed, Next, RunOf, Good;
    var env := Field(1, OtherUpstreamPeer);
    FieldIsSane(1, OtherUpstreamPeer);
    FieldHasNoEndpoints(1, OtherUpstreamPeer);
    var e1, e2 := Event(StartConnect(1, 5), env), Event(StartConnect(2, 6), env);
    var e3, e4 := Event(PeerUpdated(1, 2), env), Event(PeerUpdated(2, 1), env);
    events := [e1, e2, e3, e4];
    RunOfFour(e1, e2, e3, e4);
    NextIsStarted(Init, 1, 5, env);
    FirstRequest();
    NextIsStarted(RunOf(Init, [e1]), 2, 6, env);
    SecondRequest(RunOf(Init, [e1]));
    EveryRun([e1, e2], 0);
    NextIsPlaced(RunOf(Init, [e1, e2]), 1, 2, env);
    PlacedBelow(Forgot(RunOf(Init, [e1, e2])), 1, 2, env);
    EveryRun([e1, e2, e3], 0);
    NextIsPlaced(RunOf(Init, [e1, e2, e3]), 2, 1, env);
    PlacedBelow(Forgot(RunOf(Init, [e1, e2, e3])), 2, 1, env);
  }

  lemma FieldHasNoEndpoints(now: Time, relation: Relation)
    ensures Field(now, relation).endpoints == {}
  {
  }
}
