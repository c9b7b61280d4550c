/** Where connect attempts and timers of the atbus connector end: who is attached, bound, stamped and dialed. */
module AtbusOutcomes {
  import opened Common
  import opened Reachability
  import opened AtbusTable
  import opened AtbusRoutes
  import opened AtbusMachine
  import Backoff

  /** Setting one entry ready or unready reaches that entry, leaves entries that have the flag already
      as they are, and touches nothing but flags and clocks. */
  lemma SpreadToEnds(hs: Table, id: BusId, ready: bool, x: BusId)
    requires id in hs && x in hs
    ensures var end := SpreadTo(hs, id, ready);
      && end.Keys == hs.Keys && end[id].ready == ready && (hs[x].ready == ready ==> end[x] == hs[x])
      && end[x].entry == hs[x].entry && end[x].proxy == hs[x].proxy && end[x].proxyFor == hs[x].proxyFor
  {
    ReachSetIsClosed(Down(hs), ReadyIds(hs, false), id);
    ReachSetIsClosed(Down(hs), ReadyIds(hs, true), id);
  }

  /** What entering id and its hop makes of the entries. */
  lemma PairEntries(s: State, id: BusId, p: BusId, app: Option<AppRef>, apart: bool, env: Env, x: BusId)
    requires x in s.hs.Keys + {id, p}
    ensures var t := Pair(s, id, p, app, apart, env);
      && (x in s.hs ==> t.hs[x] == s.hs[x].(entry := s.hs[x].entry.(app := t.hs[x].entry.app)))
      && (x !in s.hs ==> Fresh(t.hs[x]) && t.hs[x].proxy == 0)
      && t.hs[x].entry.app == (if x == id && app.Some? then app else if x in s.hs then s.hs[x].entry.app else None)
  {
  }

  /** What opening a way to id over p makes of the entries. */
  lemma OpenEntries(s: State, id: BusId, p: BusId, app: Option<AppRef>, apart: bool, env: Env, x: BusId)
    requires Sound(s) && id != 0 && x in s.hs.Keys + {id, p}
    ensures var t := Open(s, id, p, app, apart, env);
      && (x in s.hs ==> t.hs[x].clock == s.hs[x].clock && t.hs[x].ready == s.hs[x].ready)
      && (x !in s.hs ==> Fresh(t.hs[x]))
      && t.hs[x].entry.app == (if x == id && app.Some? then app else if x in s.hs then s.hs[x].entry.app else None)
      && (x in s.hs ==> t.hs[x].entry == s.hs[x].entry.(app := t.hs[x].entry.app))
      && t.hs[x].proxy == (if x == id && p != id then p else if x in s.hs then s.hs[x].proxy else 0)
  {
    hide Good, Pair;
    NoSelfProxy(s, id);
    PairEntries(s, id, p, app, apart, env, id);
    PairEntries(s, id, p, app, apart, env, x);
    var mid := Pair(s, id, p, app, apart, env).hs;
    if id != p && mid[id].proxy != p {
      BoundPointwise(mid, id, p, x);
    }
  }

  /** An entry that has just been made: a try is due at once, and none has been made. */
  predicate Fresh(h: Handle) {
    !h.ready && h.clock.retry == 0 && h.clock.nextReconnect == 0
  }

  /** The hop of an attached target is as it was, or fresh; the target has its readiness. */
  lemma AttachedEntries(s: State, id: BusId, p: BusId, app: Option<AppRef>, env: Env, x: BusId)
    requires Sound(s) && id != 0 && x in s.hs.Keys + {id, p}
    ensures var t := Attached(s, id, p, app, env);
      && (p in s.hs ==> t.hs[p].clock == s.hs[p].clock && t.hs[p].ready == s.hs[p].ready)
      && (p !in s.hs ==> Fresh(t.hs[p]))
      && t.hs[id].ready == t.hs[p].ready
      && t.hs[x].entry.app == (if x == id && app.Some? then app else if x in s.hs then s.hs[x].entry.app else None)
      && (x in s.hs ==> t.hs[x].entry == s.hs[x].entry.(app := t.hs[x].entry.app))
      && t.hs[x].proxy == (if x == id && p != id then p else if x in s.hs then s.hs[x].proxy else 0)
  {
    hide Good, Open, SpreadTo;
    var t := Open(s, id, p, app, false, env);
    OpenEntries(s, id, p, app, false, env, p);
    OpenEntries(s, id, p, app, false, env, x);
    SpreadToEnds(t.hs, id, t.hs[p].ready, p);
    SpreadToEnds(t.hs, id, t.hs[p].ready, x);
  }

  /** The hop is asked for one try more than it has. */
  predicate Lapses(s: State, r: Route, env: Env) {
    r.Through? && r.hop in s.hs && Due(s.hs[r.hop], env) && OutOfTries(s.hs[r.hop].clock, env.conf)
  }

  /** What a table that holds an attached target looks like to entry x, apart from its clock. */
  ghost predicate Seen(s: State, r: Route, id: BusId, app: Option<AppRef>, t: Table, x: BusId)
  {
    && x in t
    && t[x].entry.app == (if x == id && app.Some? then app else if x in s.hs then s.hs[x].entry.app else None)
    && (x in s.hs ==> t[x].entry == s.hs[x].entry.(app := t[x].entry.app, waiting := t[x].entry.waiting))
    && (x in s.hs && !(r.Through? && x == r.hop) ==> t[x].entry.waiting == s.hs[x].entry.waiting)
    && t[x].proxy == (if x == id && Binds(r, id) then r.hop else if x in s.hs then s.hs[x].proxy else 0)
  }

  lemma WokenEntries(s: State, p: BusId, env: Env, x: BusId)
    requires p in s.hs && x in s.hs && !(Due(s.hs[p], env) && OutOfTries(s.hs[p].clock, env.conf))
    ensures var t := Woken(s, p, env); x in t.hs && t.hs[x] == s.hs[x].(clock := t.hs[x].clock)
  {
    hide Removed, Retried;
  }

  lemma AwaitingEntries(hs: Table, p: BusId, env: Env, x: BusId)
    requires p in hs && x in hs
    ensures var t := Awaiting(hs, p, env);
      x in t && t[x] == hs[x].(entry := hs[x].entry.(waiting := t[x].entry.waiting)) && (x != p ==> t[x] == hs[x])
  {
  }

  /** A hop that does not lapse is woken and waited for without any change to what x shows. */
  lemma HopEntries(s: State, id: BusId, p: BusId, app: Option<AppRef>, env: Env, x: BusId)
    requires var t := Attached(s, id, p, app, env).hs[p]; !(Due(t, env) && OutOfTries(t.clock, env.conf))
    requires x in s.hs.Keys + {id, p}
    ensures var mid, used, dialed := Attached(s, id, p, app, env).hs[x], UsedHop(s, id, p, app, env).hs, DialedHop(s, id, p, app, env).hs;
      && x in used && used[x] == mid.(clock := used[x].clock, entry := mid.entry.(waiting := used[x].entry.waiting))
      && (x != p ==> used[x].entry == mid.entry)
      && x in dialed && dialed[x] == mid.(clock := dialed[x].clock)
  {
    hide Attached, Woken, Awaiting;
    var mid := Attached(s, id, p, app, env);
    WokenEntries(mid, p, env, x);
    WokenEntries(mid, p, env, p);
    AwaitingEntries(Woken(mid, p, env).hs, p, env, x);
  }

  lemma ThroughEntries(s: State, id: BusId, p: BusId, app: Option<AppRef>, env: Env, x: BusId)
    requires Sound(s) && id != 0 && !Lapses(s, Through(p), env) && x in s.hs.Keys + {id, p}
    ensures Seen(s, Through(p), id, app, UsedHop(s, id, p, app, env).hs, x)
    ensures Seen(s, Through(p), id, app, DialedHop(s, id, p, app, env).hs, x)
  {
    hide Good, Attached, UsedHop, DialedHop;
    AttachedEntries(s, id, p, app, env, x);
    HopEntries(s, id, p, app, env, x);
  }

  lemma ThroughLands(s: State, id: BusId, p: BusId, app: Option<AppRef>, env: Env)
    requires Sound(s) && id != 0 && !Lapses(s, Through(p), env)
    ensures Landed(Through(p), id, env, UsedHop(s, id, p, app, env).hs)
    ensures Landed(Through(p), id, env, DialedHop(s, id, p, app, env).hs)
  {
    hide Good, Attached, UsedHop, DialedHop;
    AttachedEntries(s, id, p, app, env, p);
    HopEntries(s, id, p, app, env, id);
    HopEntries(s, id, p, app, env, p);
  }

  /** Following a route puts the target at its hop, holding the handle it was asked for, and leaves who
      holds which handle, who proxies whom and who is in use as it was for every other entry. The one
      exception is a hop that has no try left, which is removed. */
  lemma FollowEntries(s: State, r: Route, id: BusId, app: Option<AppRef>, env: Env, x: BusId)
    requires Sound(s) && id != 0 && !r.Refused? && !Lapses(s, r, env) && x in s.hs.Keys + {id}
    ensures Seen(s, r, id, app, Follow(s, r, id, app, env).hs, x)
  {
    hide Good, UsedHop, DialedHop, SpreadTo, Open, Ensured;
    match r
    case Here => DirectEntries(s, r, id, app, true, env, x);
    case Connected => DirectEntries(s, r, id, app, env.Available(id), env, x);
    case Through(p) => ThroughEntries(s, id, p, app, env, x);
    case Forwarded(p) =>
      var t := Open(s, id, p, app, true, env);
      OpenEntries(s, id, p, app, true, env, x);
      SpreadToEnds(t.hs, id, env.Available(p), x);
  }

  lemma DirectEntries(s: State, r: Route, id: BusId, app: Option<AppRef>, ready: bool, env: Env, x: BusId)
    requires (r.Here? || r.Connected?) && x in s.hs.Keys + {id}
    ensures Seen(s, r, id, app, Direct(s, id, app, ready, env).hs, x)
    ensures Direct(s, id, app, ready, env).hs[id].ready == ready
  {
    hide SpreadTo;
    var t := Ensure(s, id, app, env);
    SpreadToEnds(t.hs, id, ready, x);
  }

  /** The readiness with which a target ends up. */
  ghost predicate Landed(r: Route, id: BusId, env: Env, hs: Table) {
    && id in hs
    && match r
       case Refused(_) => true
       case Here => hs[id].ready
       case Connected => hs[id].ready == env.Available(id)
       case Through(p) => p in hs && hs[id].ready == hs[p].ready
       case Forwarded(p) => p in hs && hs[id].ready == env.Available(p)
  }

  lemma FollowLands(s: State, r: Route, id: BusId, app: Option<AppRef>, env: Env)
    requires Sound(s) && id != 0 && !r.Refused? && !Lapses(s, r, env)
    ensures Landed(r, id, env, Follow(s, r, id, app, env).hs)
  {
    hide Good, UsedHop, DialedHop, SpreadTo, Open, Ensured, Direct;
    match r
    case Here => DirectEntries(s, r, id, app, true, env, id);
    case Connected => DirectEntries(s, r, id, app, env.Available(id), env, id);
    case Through(p) => ThroughLands(s, id, p, app, env);
    case Forwarded(p) =>
      var t := Open(s, id, p, app, true, env);
      SpreadToEnds(t.hs, id, env.Available(p), p);
  }

  /** Nobody's spread reaches an entry that nobody proxies. */
  lemma UnproxiedUntouched(hs: Table, id: BusId, ready: bool, p: BusId)
    requires Linked(hs, {}) && id in hs && p in hs && p != id && hs[p].proxy == 0
    ensures SpreadTo(hs, id, ready)[p] == hs[p]
  {
    if p in Flips(hs, id, ready) {
      ReachesEnds(Down(hs), ReadyIds(hs, !ready), id, p);
    }
  }

  /** A forwarded target is ready while the entry of its hop is not, if and only if the hop's endpoint is
      available and its entry has not heard of that: readiness comes from the endpoint, not the entry. */
  lemma ReadyAheadOfHop(s: State, id: BusId, p: BusId, app: Option<AppRef>, env: Env)
    requires Sound(s) && id != 0 && p != 0 && p != id && AppFree(s.hs, id, app) && env.now > 0
    requires p in s.hs ==> s.hs[p].proxy == 0
    ensures var t := Follow(s, Forwarded(p), id, app, env).hs;
      && id in t && p in t
      && (t[id].ready && !t[p].ready <==> env.Available(p) && !(p in s.hs && s.hs[p].ready))
  {
    hide Good, Open, SpreadTo, Moved, Linked, AppFree;
    var t := Open(s, id, p, app, true, env);
    OpenEntries(s, id, p, app, true, env, p);
    OpenKeeps(s, id, p, app, true, env);
    KeptIsSound(s, t, env, true);
    SoundParts(t);
    SpreadToEnds(t.hs, id, env.Available(p), id);
    UnproxiedUntouched(t.hs, id, env.Available(p), p);
  }

  /** A hop without a try left goes, and with it whatever hangs on it and can be closed. */
  lemma LapsedHopGoes(s: State, r: Route, id: BusId, app: Option<AppRef>, env: Env)
    requires Sound(s) && id != 0 && Lapses(s, r, env) && r.hop != 0 && AppFree(s.hs, id, app) && env.now > 0
    ensures var mid, t := Attached(s, id, r.hop, app, env), Follow(s, r, id, app, env);
      t.hs == Removed(mid.hs, mid.stamps, r.hop) && r.hop !in t.hs
  {
    hide Good, GoodBut, Moved, Attached, Removed, AppFree, Counted, SetWaiting, Waits;
    var mid := Attached(s, id, r.hop, app, env);
    AttachedEntries(s, id, r.hop, app, env, r.hop);
    AttachedKeeps(s, id, r.hop, app, env);
    KeptIsSound(s, mid, env, r.hop != id);
    SoundIsGoodBut(mid, r.hop);
    RemovedKeeps(mid, r.hop, env);
  }

  lemma PairStamps(s: State, id: BusId, p: BusId, app: Option<AppRef>, apart: bool, env: Env)
    ensures Open(s, id, p, app, apart, env).stamps ==
      if app.Some? && id !in s.hs && !(apart && p == id) then s.stamps[app.value := id] else s.stamps
  {
    hide Ensured, Bound;
  }

  lemma HopStamps(s: State, id: BusId, p: BusId, app: Option<AppRef>, env: Env)
    ensures UsedHop(s, id, p, app, env).stamps == DialedHop(s, id, p, app, env).stamps == Open(s, id, p, app, false, env).stamps
  {
    hide Open, SpreadTo, Tried, Awaiting;
  }

  /** An application handle is stamped with its target if and only if following the route creates the
      target's entry for it: not for an entry that is there already, nor for one that has just been
      made as the first hop towards itself. */
  lemma FollowStamps(s: State, r: Route, id: BusId, app: Option<AppRef>, env: Env)
    requires !r.Refused?
    ensures Follow(s, r, id, app, env).stamps ==
      if app.Some? && id !in s.hs && r != Forwarded(id) then s.stamps[app.value := id] else s.stamps
  {
    hide SpreadTo, Open, Ensured, UsedHop, DialedHop;
    if r.Through? || r.Forwarded? {
      PairStamps(s, id, r.hop, app, r.Forwarded?, env);
      HopStamps(s, id, r.hop, app, env);
    }
  }

  /** A connection to the hop is started: it has none, but an address, and a try is due and allowed.
      An entry that does not exist yet is due at once. */
  predicate Starts(s: State, p: BusId, env: Env) {
    !NoDialing(env, p) && (p in s.hs ==> Due(s.hs[p], env) && !OutOfTries(s.hs[p].clock, env.conf))
  }

  lemma FollowDials(s: State, r: Route, id: BusId, app: Option<AppRef>, env: Env)
    requires Sound(s) && id != 0 && (r.Through? ==> r.hop != 0)
    ensures Follow(s, r, id, app, env).dials == if r.Through? && Starts(s, r.hop, env) then s.dials + [r.hop] else s.dials
  {
    hide Good, Attached, SpreadTo, Removed, Bound, Ensured, Counted;
    if r.Through? {
      AttachedEntries(s, id, r.hop, app, env, r.hop);
      AttachedDials(s, id, r.hop, app, env);
    }
  }

  lemma AttachedDials(s: State, id: BusId, p: BusId, app: Option<AppRef>, env: Env)
    ensures Attached(s, id, p, app, env).dials == s.dials
  {
    hide SpreadTo, Bound, Ensured;
  }

  /** A connect attempt starts a connection to p if and only if its route leads through p, p has no
      endpoint but discovery data with an address, and p's entry, if there is one, has a try due and
      left. Otherwise it starts none. */
  lemma ConnectDials(s: State, id: BusId, app: Option<AppRef>, allowProxy: bool, env: Env, p: BusId)
    requires Sound(s) && env.Sane()
    ensures var r, t := RouteOf(env, id, app, allowProxy), Connect(s, id, app, allowProxy, env);
      && (t.dials == s.dials + [p] <==>
            && r == Through(p) && p !in env.endpoints && p in env.discovery && p in env.addressable
            && (p in s.hs ==> Due(s.hs[p], env) && !OutOfTries(s.hs[p].clock, env.conf)))
      && (t.dials == s.dials || (r.Through? && t.dials == s.dials + [r.hop]))
  {
    hide Good, Follow, RouteOf;
    var r := RouteOf(env, id, app, allowProxy);
    HopsAreIds(env, id, app, allowProxy);
    ThroughFits(env, id, app, allowProxy);
    if !r.Refused? {
      FollowDials(s, r, id, app, env);
      assert r.Through? ==> ([r.hop] == [p] <==> r.hop == p);
      assert s.dials + [p] != s.dials;
      assert r.Through? && s.dials + [r.hop] == s.dials + [p] ==> (s.dials + [r.hop])[|s.dials|] == (s.dials + [p])[|s.dials|];
    } else {
      assert Follow(s, r, id, app, env) == s by { RefusedStays(s, r, id, app, env); }
      assert s.dials + [p] != s.dials;
    }
  }

  lemma RefusedStays(s: State, r: Route, id: BusId, app: Option<AppRef>, env: Env)
    requires r.Refused?
    ensures Follow(s, r, id, app, env) == s
  {
  }

  lemma ThroughFits(env: Env, id: BusId, app: Option<AppRef>, allowProxy: bool)
    ensures var r := RouteOf(env, id, app, allowProxy);
      r.Through? && !NoDialing(env, r.hop) ==> r.hop in env.addressable
  {
    var k := FirstHopIsNearest(env, id, app, Hops(env, id));
  }

  /** Nothing is started for a target that has a try scheduled for later. */
  lemma AgainDials(s: State, id: BusId, env: Env)
    requires Sound(s) && id in s.hs && env.Sane() && !Due(s.hs[id], env)
    ensures Again(s, id, env).dials == s.dials
  {
    hide Good, Follow, Connect, RouteOf;
    if !Settled(s.hs[id], id, env) {
      var r := RouteOf(env, id, s.hs[id].entry.app, false);
      ConnectDials(s, id, s.hs[id].entry.app, false, env, id);
      DirectRouteAddsNoLink(env, id, s.hs[id].entry.app);
    }
  }

  /** A try that has just been counted is scheduled for later. */
  lemma CountedIsNotDue(hs: Table, id: BusId, previous: Time, env: Env)
    requires id in hs
    ensures !Due(Counted(hs, id, previous, env)[id], env)
  {
    var start, max, n := StartInterval(env.conf), MaxInterval(env.conf), hs[id].clock.retry;
    DoubledGrows(start, 0, n);
    Backoff.IntervalByDoubling(start, max, n);
  }

  /** A timer never starts a connection: a due try is scheduled anew before it is made, and is then
      put off as not due. */
  lemma TimerNeverDials(s: State, id: BusId, serial: nat, env: Env)
    requires Sound(s) && env.Sane()
    ensures Ticked(s, id, serial, env).dials == s.dials
  {
    hide Good, GoodBut, Again, Counted, Removed, Rearmed;
    if id in s.hs {
      var mid := s.(hs := s.hs[id := Silenced(s.hs[id])]);
      SilencedIsGoodBut(s, id);
      if !OutOfTries(mid.hs[id].clock, env.conf) && (mid.hs[id].clock.lost ==> env.now < mid.hs[id].clock.lostDeadline) {
        var deadline := DeadlineOf(mid.hs[id].clock);
        CountedKeeps(mid, id, deadline, env);
        var low := mid.(hs := Counted(mid.hs, id, deadline, env));
        CountedKeys(mid.hs, id, deadline, env);
        CountedIsNotDue(mid.hs, id, deadline, env);
        KeptIsSound(mid, low, env, false);
        AgainDials(low, id, env);
      }
    }
  }

  /** Losing an endpoint never starts a connection, for the same reason. */
  lemma EndpointLossNeverDials(s: State, id: BusId, env: Env)
    requires Sound(s) && env.Sane()
    ensures Dropped(s, id, env).dials == s.dials
  {
    hide Good, Again, Counted, Removed;
    if id in s.hs && !(s.hs[id].clock.nextReconnect <= env.now && OutOfTries(s.hs[id].clock, env.conf)) {
      var mid := s.(hs := Scheduled(s.hs, id, env));
      ScheduledKeeps(s, id, env);
      KeptIsSound(s, mid, env, false);
      ScheduledKeys(s.hs, id, env);
      CountedIsNotDue(s.hs, id, 0, env);
      AgainDials(mid, id, env);
    }
  }

  /** Only a connect request, a topology update and new discovery data ever start a connection. */
  lemma WhoDials(s: State, e: Event)
    requires Sound(s) && e.env.Sane()
    ensures Next(s, e).dials != s.dials ==> e.what.StartConnect? || e.what.PeerUpdated? || e.what.DiscoveryPut?
  {
    hide Good, Ticked, Dropped, Started, Placed, Discovered;
    match e.what
    case TimerFired(id, serial) => TimerNeverDials(s, id, serial, e.env);
    case EndpointRemoved(id) => EndpointLossNeverDials(s, id, e.env);
    case _ =>
  }

  /** A firing at or after the lost-topology deadline removes the entry, however early earlier firings
      came, and so does a due try at the try limit. */
  lemma FiringRemoves(s: State, id: BusId, serial: nat, env: Env)
    requires Sound(s) && id in s.hs && s.hs[id].entry.serial == serial
    requires (s.hs[id].clock.lost && env.now >= s.hs[id].clock.lostDeadline) ||
      (Due(s.hs[id], env) && OutOfTries(s.hs[id].clock, env.conf))
    ensures id !in Ticked(s, id, serial, env).hs
  {
    hide Good, GoodBut, Removed, Moved;
    var mid := s.(hs := s.hs[id := Silenced(s.hs[id])]);
    SilencedIsGoodBut(s, id);
    RemovedKeeps(mid, id, env);
  }
}
