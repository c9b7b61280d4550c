/** The atbus connector as a state machine: what each connect attempt and each event makes of the
    table of connection handles, and what follows from that for every run. */
module AtbusMachine {
  import opened Common
  import opened Reachability
  import opened AtbusTable
  import opened AtbusRoutes

  /** The answer to the last connect request, repeated while target and handle are the same; bus 0
      means that there is none. */
  datatype Cache = Cache(bus: BusId, app: Option<AppRef>, result: Code)

  /** dials lists the peers to which a connection was started, in order. */
  datatype State = State(hs: Table, stamps: Stamps, next: nat, dials: seq<BusId>, last: Cache)

  ghost const Init: State := State(map[], map[], 0, [], Cache(0, None, Success))

  datatype What =
    | StartConnect(id: BusId, app: AppRef)
    | Close(app: AppRef)
    | SendFailed(app: AppRef)
    | EndpointUpdated(id: BusId, res: int)
    | EndpointRemoved(id: BusId)
    | PeerUpdated(id: BusId, up: BusId)
    | PeerRemoved(id: BusId)
    | DiscoveryPut(id: BusId)
    | DiscoveryDeleted(id: BusId)
    | TimerFired(id: BusId, serial: nat)

  datatype Event = Event(what: What, env: Env)

  // ---------------------------------------------------------------- entries

  function NewEntry(serial: nat, id: BusId, app: Option<AppRef>, env: Env): Handle {
    var chain := if env.hasNode then env.chain(id) else [];
    var clock := Clock(0, 0, false, 0, 0);
    Handle(Entry(serial, app, false, false, if |chain| > 1 then chain[1] else 0),
           if chain == [] then LostAt(clock, env) else clock, false, 0, {})
  }

  /** The entry for id, created when missing and holding app when one is given. */
  ghost function Ensured(hs: Table, next: nat, id: BusId, app: Option<AppRef>, env: Env): Table {
    if id !in hs then hs[id := NewEntry(next, id, app, env)]
    else if app.Some? then hs[id := hs[id].(entry := hs[id].entry.(app := app))]
    else hs
  }

  /** Only an entry that is created stamps its application handle. */
  ghost function Ensure(s: State, id: BusId, app: Option<AppRef>, env: Env): (t: State)
    ensures t.hs.Keys == s.hs.Keys + {id}
  {
    s.(hs := Ensured(s.hs, s.next, id, app, env),
       stamps := if id !in s.hs && app.Some? then s.stamps[app.value := id] else s.stamps,
       next := if id in s.hs then s.next else s.next + 1)
  }

  /** Not ready, and no reconnect scheduled for later. */
  predicate Due(h: Handle, env: Env) {
    !h.ready && h.clock.nextReconnect <= env.now
  }

  predicate Waits(h: Handle, id: BusId, env: Env) {
    !Vertical(RelationOf(env, id)) && h.proxy == 0 && !env.Available(id)
  }

  /** The entry is in use, or has messages waiting for it. */
  predicate NeedKeep(h: Handle, env: Env) {
    h.entry.active || h.proxyFor != {} || (h.entry.app.Some? && h.entry.app.value in env.pendingApps)
  }

  ghost function SetWaiting(hs: Table, id: BusId): Table
    requires id in hs
  {
    hs[id := hs[id].(entry := hs[id].entry.(waiting := true))]
  }

  /** id waits for discovery data, if it is one that can. */
  ghost function Awaiting(hs: Table, id: BusId, env: Env): Table
    requires id in hs
  {
    if Waits(hs[id], id, env) then SetWaiting(hs, id) else hs
  }

  ghost function Counted(hs: Table, id: BusId, previous: Time, env: Env): Table
    requires id in hs
  {
    hs[id := hs[id].(clock := Retried(hs[id].clock, previous, env))]
  }

  /** One more try is counted and scheduled; at the try limit the entry is removed instead. */
  ghost function Tried(hs: Table, stamps: Stamps, id: BusId, previous: Time, env: Env): Table
    requires id in hs
  {
    if OutOfTries(hs[id].clock, env.conf) then Removed(hs, stamps, id) else Counted(hs, id, previous, env)
  }

  ghost function SpreadTo(hs: Table, id: BusId, ready: bool): Table {
    if ready then ReadySpread(hs, id) else UnreadySpread(hs, id)
  }

  // ---------------------------------------------------------------- following a route

  /** Entries for id and its hop. The hop of a forwarded target is entered first even when it is the
      target itself. */
  ghost function Pair(s: State, id: BusId, p: BusId, app: Option<AppRef>, apart: bool, env: Env): (t: State)
    ensures t.hs.Keys == s.hs.Keys + {id, p}
  {
    Ensure(if apart || p != id then Ensure(s, p, None, env) else s, id, app, env)
  }

  ghost function Open(s: State, id: BusId, p: BusId, app: Option<AppRef>, apart: bool, env: Env): (t: State)
    ensures t.hs.Keys == s.hs.Keys + {id, p}
  {
    var t := Pair(s, id, p, app, apart, env);
    t.(hs := Bound(t.hs, id, p))
  }

  /** id at the hop through which it is to be reached, with the readiness of the hop's entry. */
  ghost function Attached(s: State, id: BusId, p: BusId, app: Option<AppRef>, env: Env): (t: State)
    ensures t.hs.Keys == s.hs.Keys + {id, p}
  {
    var t := Open(s, id, p, app, false, env);
    t.(hs := SpreadTo(t.hs, id, t.hs[p].ready))
  }

  /** id at a next hop of the topology, with the readiness of the hop's endpoint. */
  ghost function Relayed(s: State, id: BusId, p: BusId, app: Option<AppRef>, env: Env): State {
    var t := Open(s, id, p, app, true, env);
    t.(hs := SpreadTo(t.hs, id, env.Available(p)))
  }

  ghost function Direct(s: State, id: BusId, app: Option<AppRef>, ready: bool, env: Env): State {
    var t := Ensure(s, id, app, env);
    t.(hs := SpreadTo(t.hs, id, ready))
  }

  /** A hop that is not ready gets its reconnect timer unless a try is scheduled already. */
  ghost function Woken(s: State, p: BusId, env: Env): State
    requires p in s.hs
  {
    if Due(s.hs[p], env) then s.(hs := Tried(s.hs, s.stamps, p, 0, env)) else s
  }

  /** Through a hop that is connected, or whose discovery data has to be waited for. */
  ghost function UsedHop(s: State, id: BusId, p: BusId, app: Option<AppRef>, env: Env): State {
    var t := Woken(Attached(s, id, p, app, env), p, env);
    if p in env.endpoints || p !in t.hs then t else t.(hs := Awaiting(t.hs, p, env))
  }

  /** Through a hop with an address: dialed when a try is due and allowed. */
  ghost function DialedHop(s: State, id: BusId, p: BusId, app: Option<AppRef>, env: Env): State {
    var t := Attached(s, id, p, app, env);
    var u := Woken(t, p, env);
    if Due(t.hs[p], env) && !OutOfTries(t.hs[p].clock, env.conf) then u.(dials := u.dials + [p]) else u
  }

  /** The hop is unknown to discovery or connected, so that there is nothing to dial. */
  predicate NoDialing(env: Env, p: BusId) {
    p in env.endpoints || p !in env.discovery
  }

  /** What following a route makes of the state. */
  ghost function Follow(s: State, r: Route, id: BusId, app: Option<AppRef>, env: Env): State {
    match r
    case Refused(_) => s
    case Here => Direct(s, id, app, true, env)
    case Connected => Direct(s, id, app, env.Available(id), env)
    case Through(p) => if NoDialing(env, p) then UsedHop(s, id, p, app, env) else DialedHop(s, id, p, app, env)
    case Forwarded(p) => Relayed(s, id, p, app, env)
  }

  ghost function Connect(s: State, id: BusId, app: Option<AppRef>, allowProxy: bool, env: Env): State {
    Follow(s, RouteOf(env, id, app, allowProxy), id, app, env)
  }

  /** Nothing to dial: ready, lost, waiting, proxied, or up or down the tree from here. */
  predicate Settled(h: Handle, id: BusId, env: Env) {
    h.ready || h.clock.lost || Vertical(RelationOf(env, id)) || h.proxy != 0 || h.entry.waiting
  }

  /** Another attempt at the target itself. */
  ghost function Again(s: State, id: BusId, env: Env): State
    requires id in s.hs
  {
    if Settled(s.hs[id], id, env) then s
    else if id !in env.discovery then s.(hs := SetWaiting(s.hs, id))
    else Connect(s, id, s.hs[id].entry.app, false, env)
  }

  function AgainCode(h: Handle, id: BusId, env: Env): Code {
    if Settled(h, id, env) then Success
    else if id !in env.discovery then DiscoveryNotFound
    else CodeOf(RouteOf(env, id, h.entry.app, false))
  }

  // ---------------------------------------------------------------- events

  ghost function Activated(hs: Table, x: BusId): Table {
    if x in hs then hs[x := hs[x].(entry := hs[x].entry.(active := true))] else hs
  }

  predicate Cached(s: State, id: BusId, app: AppRef) {
    s.last.bus != 0 && s.last.bus == id && s.last.app == Some(app)
  }

  ghost function Started(s: State, id: BusId, app: AppRef, env: Env): State {
    if Cached(s, id, app) then s
    else
      var t := Connect(s, id, Some(app), true, env);
      t.(hs := Activated(t.hs, StampOf(t.stamps, app)),
         last := Cache(id, Some(app), CodeOf(RouteOf(env, id, Some(app), true))))
  }

  /** The application closes a handle: the entry it is stamped with, if that holds it, spreads
      unreadiness and is removed. */
  ghost function ClosedBy(hs: Table, stamps: Stamps, app: AppRef): Table {
    var id := StampOf(stamps, app);
    if id in hs && hs[id].entry.app == Some(app) then Removed(UnreadySpread(hs, id), stamps, id) else hs
  }

  ghost function Disconnected(hs: Table, stamps: Stamps, app: AppRef): Table {
    var id := StampOf(stamps, app);
    if id in hs then UnreadySpread(hs, id) else hs
  }

  ghost function Updated(hs: Table, id: BusId, res: int, env: Env): Table {
    if id in hs && res >= 0 && env.Available(id) then ReadySpread(hs, id) else hs
  }

  /** A try is counted and scheduled unless one is scheduled for later already. */
  ghost function Scheduled(hs: Table, id: BusId, env: Env): Table
    requires id in hs
  {
    if hs[id].clock.nextReconnect <= env.now then Counted(hs, id, 0, env) else hs
  }

  /** A neighbour or a remote peer is attempted again, and removed when policy no longer allows it. */
  ghost function Readmitted(s: State, id: BusId, env: Env): State
    requires id in s.hs
  {
    var r := RelationOf(env, id);
    if !(r.SameUpstreamPeer? || r.OtherUpstreamPeer?) then s
    else if AgainCode(s.hs[id], id, env) == TopologyDeny then s.(hs := Removed(s.hs, s.stamps, id))
    else Again(s, id, env)
  }

  /** An endpoint is gone. Ready flags are not cleared. */
  ghost function Dropped(s: State, id: BusId, env: Env): State {
    if id !in s.hs then s
    else if !NeedKeep(s.hs[id], env) || (s.hs[id].clock.nextReconnect <= env.now && OutOfTries(s.hs[id].clock, env.conf))
    then s.(hs := Removed(s.hs, s.stamps, id))
    else Readmitted(s.(hs := Scheduled(s.hs, id, env)), id, env)
  }

  /** The entry of a peer that the topology reports: no longer lost, and without a timer it does not
      need. */
  function Found(h: Handle, id: BusId, up: BusId, env: Env): Handle {
    var found := h.(clock := h.clock.(lost := false, lostDeadline := 0), entry := h.entry.(upstream := up));
    if h.ready || env.Available(id) then found.(clock := found.clock.(timer := 0)) else found
  }

  /** The target's way up in the topology still leads through its proxy. */
  predicate StillOnPath(h: Handle, id: BusId, up: BusId, env: Env) {
    up != 0 && h.proxy != 0 && env.hasNode && h.proxy in env.chain(id)
  }

  /** id has left its proxy. When id is this node, what was reached through that proxy goes too. */
  ghost function Left(hs: Table, stamps: Stamps, id: BusId, env: Env): Table
    requires id in hs
  {
    var p := hs[id].proxy;
    if p == 0 then hs else if id == env.self then Removed(Freed(hs, id), stamps, p) else Freed(hs, id)
  }

  ghost function Joined(hs: Table, id: BusId, up: BusId): Table
    requires id in hs && up in hs
  {
    var bound := Bound(hs, id, up);
    SpreadTo(bound, id, bound[up].ready)
  }

  /** A new connect attempt; an entry that is then still not ready gets its reconnect timer. */
  ghost function Redialed(s: State, id: BusId, env: Env): State
    requires id in s.hs
  {
    var t := Connect(s, id, s.hs[id].entry.app, s.hs[id].entry.active, env);
    if id in t.hs then Woken(t, id, env) else t
  }

  /** A new path for an entry that has left its proxy. */
  ghost function Rerouted(s: State, id: BusId, up: BusId, env: Env): State
    requires id in s.hs
  {
    var h := s.hs[id];
    if env.Available(id) then s.(hs := ReadySpread(s.hs, id))
    else if !NeedKeep(h, env) then s.(hs := Removed(s.hs, s.stamps, id))
    else if up != 0 && up in s.hs then s.(hs := Joined(s.hs, id, up))
    else if h.entry.waiting then s.(hs := UnreadySpread(s.hs, id))
    else if id !in env.discovery then s.(hs := UnreadySpread(Awaiting(s.hs, id, env), id))
    else Redialed(s, id, env)
  }

  /** The topology reports id below up. */
  ghost function Placed(s: State, id: BusId, up: BusId, env: Env): State {
    if id !in s.hs then s
    else
      var t := s.(hs := s.hs[id := Found(s.hs[id], id, up, env)]);
      if s.hs[id].entry.upstream == up then Again(t, id, env)
      else if StillOnPath(t.hs[id], id, up, env) then t
      else
        var left := Left(t.hs, t.stamps, id, env);
        if id in left then Rerouted(t.(hs := left), id, up, env) else t.(hs := left)
  }

  ghost function Lost(hs: Table, id: BusId, env: Env): Table {
    if id in hs then hs[id := hs[id].(clock := LostAt(hs[id].clock, env))] else hs
  }

  /** Discovery data appears for id, which may have waited for it. */
  ghost function Discovered(s: State, id: BusId, env: Env): State {
    if id in s.hs && s.hs[id].entry.waiting
    then Again(s.(hs := s.hs[id := s.hs[id].(entry := s.hs[id].entry.(waiting := false))]), id, env)
    else s
  }

  function Silenced(h: Handle): Handle {
    h.(clock := h.clock.(timer := 0))
  }

  function DeadlineOf(c: Clock): Time {
    if c.lost then c.lostDeadline else 0
  }

  /** The timer is armed for whichever comes first, the deadline or the next try. */
  ghost function Rearmed(hs: Table, id: BusId): Table
    requires id in hs
  {
    var h, deadline := hs[id], DeadlineOf(hs[id].clock);
    hs[id := h.(clock := h.clock.(timer :=
      if !h.ready && (deadline == 0 || deadline > h.clock.nextReconnect) then h.clock.nextReconnect else deadline))]
  }

  /** The timer of id, already taken off the entry, has fired: past its deadline, or out of tries when
      one is due, the entry is removed; a try that is due is counted and scheduled, and only then made. */
  ghost function Fired(s: State, id: BusId, env: Env): State
    requires id in s.hs
  {
    var h := s.hs[id];
    if h.clock.lost && env.now >= h.clock.lostDeadline then s.(hs := Removed(s.hs, s.stamps, id))
    else if !Due(h, env) then s.(hs := Rearmed(s.hs, id))
    else if OutOfTries(h.clock, env.conf) then s.(hs := Removed(s.hs, s.stamps, id))
    else Again(s.(hs := Counted(s.hs, id, DeadlineOf(h.clock), env)), id, env)
  }

  /** A timer of an entry that has been replaced does nothing. */
  ghost function Ticked(s: State, id: BusId, serial: nat, env: Env): State {
    if id in s.hs && s.hs[id].entry.serial == serial then Fired(s.(hs := s.hs[id := Silenced(s.hs[id])]), id, env) else s
  }

  ghost function Forgot(s: State): State {
    s.(last := s.last.(bus := 0, app := None))
  }

  /** app may be attached to id's entry: no other entry holds it. */
  ghost predicate AppFree(hs: Table, id: BusId, app: Option<AppRef>) {
    app.Some? ==> forall x :: x in hs && hs[x].entry.app == app ==> x == id
  }

  /** One event. A connection handle object is made for a single target, so a connect request with a
      handle that another entry holds cannot arise and is passed over. */
  ghost function Next(s: State, e: Event): State {
    match e.what
    case StartConnect(id, app) => if AppFree(s.hs, id, Some(app)) then Started(s, id, app, e.env) else s
    case Close(app) => s.(hs := ClosedBy(s.hs, s.stamps, app))
    case SendFailed(app) => s.(hs := Disconnected(s.hs, s.stamps, app))
    case EndpointUpdated(id, res) => s.(hs := Updated(s.hs, id, res, e.env))
    case EndpointRemoved(id) => Dropped(s, id, e.env)
    case PeerUpdated(id, up) => Placed(Forgot(s), id, up, e.env)
    case PeerRemoved(id) => Forgot(s).(hs := Lost(s.hs, id, e.env))
    case DiscoveryPut(id) => Discovered(Forgot(s), id, e.env)
    case DiscoveryDeleted(id) => Forgot(s).(hs := if id in s.hs then Awaiting(s.hs, id, e.env) else s.hs)
    case TimerFired(id, serial) => Ticked(s, id, serial, e.env)
  }

  ghost function RunOf(s: State, events: seq<Event>): State {
    if events == [] then s else Next(RunOf(s, events[..|events| - 1]), events[|events| - 1])
  }

  lemma RunOfMore(s: State, events: seq<Event>, e: Event)
    ensures RunOf(s, events + [e]) == Next(RunOf(s, events), e)
    ensures RunOf(s, []) == s
  {
    assert (events + [e])[..|events|] == events;
  }

  // ---------------------------------------------------------------- what following a route keeps

  ghost predicate Sound(s: State) {
    Good(s.hs, s.next)
  }

  lemma SoundParts(s: State)
    requires Sound(s)
    ensures Linked(s.hs, {}) && AppsUnique(s.hs)
  {
  }

  lemma NoSelfProxy(s: State, id: BusId)
    requires Sound(s)
    ensures id in s.hs ==> s.hs[id].proxy != id
  {
  }

  ghost predicate Keeps(s: State, t: State, env: Env, binds: bool) {
    Moved(s.hs, s.next, t.hs, t.next, env.conf.maxTry, binds)
  }

  lemma KeepsTwice(s: State, mid: State, t: State, env: Env, b1: bool, b2: bool)
    requires Keeps(s, mid, env, b1) && Keeps(mid, t, env, b2)
    ensures Keeps(s, t, env, b1 || b2)
  {
    MovedTwice(s.hs, s.next, mid.hs, mid.next, t.hs, t.next, env.conf.maxTry, b1, b2);
  }

  lemma EnsureKeeps(s: State, id: BusId, app: Option<AppRef>, env: Env)
    requires Sound(s) && id != 0 && AppFree(s.hs, id, app) && env.now > 0
    ensures Keeps(s, Ensure(s, id, app, env), env, false)
  {
    hide SameClocks, RetryWithin, NoNewLinks, Linked, AppsUnique;
    if id !in s.hs {
      MovedByFresh(s.hs, s.next, id, NewEntry(s.next, id, app, env), env.conf.maxTry);
    } else if app.Some? {
      var h := s.hs[id];
      MovedByEntry(s.hs, s.next, id, h.entry.(app := app), h.clock, env.conf.maxTry);
      assert h.(entry := h.entry.(app := app), clock := h.clock) == h.(entry := h.entry.(app := app));
    } else {
      MovedNot(s.hs, s.next, env.conf.maxTry);
    }
  }

  lemma PairKeeps(s: State, id: BusId, p: BusId, app: Option<AppRef>, apart: bool, env: Env)
    requires Sound(s) && id != 0 && p != 0 && AppFree(s.hs, id, app) && env.now > 0
    ensures Keeps(s, Pair(s, id, p, app, apart, env), env, false)
  {
    hide SameClocks, RetryWithin, NoNewLinks, Linked, AppsUnique;
    if apart || p != id {
      var mid := Ensure(s, p, None, env);
      EnsureKeeps(s, p, None, env);
      EnsureKeeps(mid, id, app, env);
      KeepsTwice(s, mid, Ensure(mid, id, app, env), env, false, false);
    } else {
      EnsureKeeps(s, id, app, env);
    }
  }

  lemma OpenKeeps(s: State, id: BusId, p: BusId, app: Option<AppRef>, apart: bool, env: Env)
    requires Sound(s) && id != 0 && p != 0 && AppFree(s.hs, id, app) && env.now > 0
    ensures Keeps(s, Open(s, id, p, app, apart, env), env, p != id)
    ensures p != id ==> Open(s, id, p, app, apart, env).hs[id].proxy == p
  {
    hide SameClocks, RetryWithin, NoNewLinks, Linked, AppsUnique;
    var mid := Pair(s, id, p, app, apart, env);
    PairKeeps(s, id, p, app, apart, env);
    MovedByBind(mid.hs, mid.next, id, p, env.conf.maxTry);
    KeepsTwice(s, mid, Open(s, id, p, app, apart, env), env, false, p != id);
  }

  lemma SpreadKeeps(s: State, id: BusId, ready: bool, env: Env)
    requires Sound(s)
    ensures Keeps(s, s.(hs := SpreadTo(s.hs, id, ready)), env, false)
  {
    MovedByReady(s.hs, s.next, Flips(s.hs, id, true), env.conf.maxTry);
    MovedByUnready(s.hs, s.next, Flips(s.hs, id, false), env.conf.maxTry);
  }

  lemma AttachedKeeps(s: State, id: BusId, p: BusId, app: Option<AppRef>, env: Env)
    requires Sound(s) && id != 0 && p != 0 && AppFree(s.hs, id, app) && env.now > 0
    ensures Keeps(s, Attached(s, id, p, app, env), env, p != id)
  {
    hide Moved, Open, SpreadTo, AppFree;
    var mid := Open(s, id, p, app, false, env);
    OpenKeeps(s, id, p, app, false, env);
    KeptIsSound(s, mid, env, p != id);
    SpreadKeeps(mid, id, mid.hs[p].ready, env);
    KeepsTwice(s, mid, Attached(s, id, p, app, env), env, p != id, false);
  }

  lemma RelayedKeeps(s: State, id: BusId, p: BusId, app: Option<AppRef>, env: Env)
    requires Sound(s) && id != 0 && p != 0 && AppFree(s.hs, id, app) && env.now > 0
    ensures Keeps(s, Relayed(s, id, p, app, env), env, p != id)
  {
    hide Moved, Open, SpreadTo, AppFree;
    var mid := Open(s, id, p, app, true, env);
    OpenKeeps(s, id, p, app, true, env);
    KeptIsSound(s, mid, env, p != id);
    SpreadKeeps(mid, id, env.Available(p), env);
    KeepsTwice(s, mid, Relayed(s, id, p, app, env), env, p != id, false);
  }

  lemma DirectKeeps(s: State, id: BusId, app: Option<AppRef>, ready: bool, env: Env)
    requires Sound(s) && id != 0 && AppFree(s.hs, id, app) && env.now > 0
    ensures Keeps(s, Direct(s, id, app, ready, env), env, false)
  {
    hide Moved, Ensure, SpreadTo, AppFree;
    var mid := Ensure(s, id, app, env);
    EnsureKeeps(s, id, app, env);
    KeptIsSound(s, mid, env, false);
    SpreadKeeps(mid, id, ready, env);
    KeepsTwice(s, mid, Direct(s, id, app, ready, env), env, false, false);
  }

  lemma KeptIsSound(s: State, t: State, env: Env, binds: bool)
    requires Keeps(s, t, env, binds)
    ensures Sound(t)
  {
  }

  lemma KeepsNothingDone(s: State, env: Env)
    requires Sound(s)
    ensures Keeps(s, s, env, false)
  {
    MovedNot(s.hs, s.next, env.conf.maxTry);
  }

  lemma RemovedKeeps(s: State, id: BusId, env: Env)
    requires GoodBut(s.hs, s.next, id) && id in s.hs
    ensures Keeps(s, s.(hs := Removed(s.hs, s.stamps, id)), env, false)
    ensures id !in Removed(s.hs, s.stamps, id)
  {
    MovedByRemoval(s.hs, s.next, s.stamps, id, env.conf.maxTry);
  }

  /** A try that is counted keeps the timer of a lost entry no later than its deadline, given the
      pending timer or the previous time is. */
  lemma CountedKeeps(s: State, id: BusId, previous: Time, env: Env)
    requires GoodBut(s.hs, s.next, id) && id in s.hs && env.now > 0 && !OutOfTries(s.hs[id].clock, env.conf)
    requires s.hs[id].clock.lost ==>
      (0 < s.hs[id].clock.timer <= s.hs[id].clock.lostDeadline || 0 < previous <= s.hs[id].clock.lostDeadline)
    ensures Keeps(s, s.(hs := Counted(s.hs, id, previous, env)), env, false)
  {
    var h, c := s.hs[id], Retried(s.hs[id].clock, previous, env);
    RetriedIsSafe(h.clock, previous, env);
    MovedByEntry(s.hs, s.next, id, h.entry, c, env.conf.maxTry);
    assert h.(entry := h.entry, clock := c) == h.(clock := c);
  }

  lemma RetriedIsSafe(c: Clock, previous: Time, env: Env)
    requires env.now > 0 && !OutOfTries(c, env.conf)
    requires c.lost ==> 0 < c.timer <= c.lostDeadline || 0 < previous <= c.lostDeadline
    ensures var r := Retried(c, previous, env);
      && r.lost == c.lost && r.lostDeadline == c.lostDeadline
      && (r.lost ==> 0 < r.timer <= r.lostDeadline)
      && (env.conf.maxTry > 0 ==> r.retry <= env.conf.maxTry)
  {
    if env.conf.maxTry > 0 && c.retry + 1 >= U32 {
      ModSmall(c.retry + 1);
    }
  }

  lemma ModSmall(n: nat)
    ensures n % U32 <= n
  {
  }

  lemma WokenKeeps(s: State, p: BusId, env: Env)
    requires Sound(s) && p in s.hs && env.now > 0
    ensures Keeps(s, Woken(s, p, env), env, false)
  {
    hide Moved, Removed, Counted;
    KeepsNothingDone(s, env);
    RemovedKeeps(s, p, env);
    if !OutOfTries(s.hs[p].clock, env.conf) {
      CountedKeeps(s, p, 0, env);
    }
  }

  lemma AwaitingKeeps(s: State, id: BusId, env: Env)
    requires Sound(s) && id in s.hs
    ensures Keeps(s, s.(hs := Awaiting(s.hs, id, env)), env, false)
    ensures Keeps(s, s.(hs := SetWaiting(s.hs, id)), env, false)
  {
    hide SameClocks, RetryWithin, NoNewLinks, Linked;
    var h := s.hs[id];
    KeepsNothingDone(s, env);
    MovedByEntry(s.hs, s.next, id, h.entry.(waiting := true), h.clock, env.conf.maxTry);
    assert h.(entry := h.entry.(waiting := true), clock := h.clock) == h.(entry := h.entry.(waiting := true));
  }

  lemma ThroughKeeps(s: State, id: BusId, p: BusId, app: Option<AppRef>, env: Env)
    requires Sound(s) && id != 0 && p != 0 && AppFree(s.hs, id, app) && env.now > 0
    ensures Keeps(s, UsedHop(s, id, p, app, env), env, p != id)
    ensures Keeps(s, DialedHop(s, id, p, app, env), env, p != id)
  {
    hide Moved, Attached, Woken, Awaiting, AppFree;
    var mid := Attached(s, id, p, app, env);
    AttachedKeeps(s, id, p, app, env);
    KeptIsSound(s, mid, env, p != id);
    var low := Woken(mid, p, env);
    WokenKeeps(mid, p, env);
    KeepsTwice(s, mid, low, env, p != id, false);
    KeptIsSound(s, low, env, p != id);
    if p in low.hs {
      AwaitingKeeps(low, p, env);
      KeepsTwice(s, low, low.(hs := Awaiting(low.hs, p, env)), env, p != id, false);
    }
  }

  lemma FollowKeeps(s: State, r: Route, id: BusId, app: Option<AppRef>, env: Env)
    requires Sound(s) && AppFree(s.hs, id, app) && env.now > 0
    requires !r.Refused? ==> id != 0
    requires r.Through? || r.Forwarded? ==> r.hop != 0
    ensures Keeps(s, Follow(s, r, id, app, env), env, Binds(r, id))
  {
    hide Moved, UsedHop, DialedHop, Direct, Relayed, AppFree;
    match r
    case Refused(_) => KeepsNothingDone(s, env);
    case Here => DirectKeeps(s, id, app, true, env);
    case Connected => DirectKeeps(s, id, app, env.Available(id), env);
    case Through(p) => ThroughKeeps(s, id, p, app, env);
    case Forwarded(p) => RelayedKeeps(s, id, p, app, env);
  }

  lemma HopsAreIds(env: Env, id: BusId, app: Option<AppRef>, allowProxy: bool)
    requires env.Sane()
    ensures var r := RouteOf(env, id, app, allowProxy);
      (!r.Refused? ==> id != 0) && (r.Through? || r.Forwarded? ==> r.hop != 0)
  {
    if id != 0 {
      var k := FirstHopIsNearest(env, id, app, Hops(env, id));
      assert k < |env.chain(id)| ==> env.chain(id)[k] != 0;
    }
  }

  lemma ConnectKeeps(s: State, id: BusId, app: Option<AppRef>, allowProxy: bool, env: Env)
    requires Sound(s) && AppFree(s.hs, id, app) && env.Sane()
    ensures Keeps(s, Connect(s, id, app, allowProxy, env), env, Binds(RouteOf(env, id, app, allowProxy), id))
  {
    hide Moved, Follow, RouteOf, AppFree, Binds;
    HopsAreIds(env, id, app, allowProxy);
    FollowKeeps(s, RouteOf(env, id, app, allowProxy), id, app, env);
  }

  /** Another attempt at the target itself adds no link, whatever its outcome. */
  lemma AgainKeeps(s: State, id: BusId, env: Env)
    requires Sound(s) && id in s.hs && env.Sane()
    ensures Keeps(s, Again(s, id, env), env, false)
  {
    hide Moved, Connect, Linked, LostTimed, SerialsBelow;
    KeepsNothingDone(s, env);
    AwaitingKeeps(s, id, env);
    if !Settled(s.hs[id], id, env) {
      DirectRouteAddsNoLink(env, id, s.hs[id].entry.app);
      ConnectKeeps(s, id, s.hs[id].entry.app, false, env);
    }
  }

  // ---------------------------------------------------------------- what every event keeps

  ghost predicate Steps(s: State, t: State, env: Env) {
    Stepped(s.hs, s.next, t.hs, t.next, env.conf.maxTry)
  }

  lemma KeepsIsSteps(s: State, t: State, env: Env, binds: bool)
    requires Keeps(s, t, env, binds)
    ensures Steps(s, t, env)
  {
    MovedIsStepped(s.hs, s.next, t.hs, t.next, env.conf.maxTry, binds);
  }

  lemma StartedSteps(s: State, id: BusId, app: AppRef, env: Env)
    requires Sound(s) && AppFree(s.hs, id, Some(app)) && env.Sane()
    ensures Steps(s, Started(s, id, app, env), env)
  {
    hide Moved, Stepped, Connect, AppFree;
    KeepsNothingDone(s, env);
    KeepsIsSteps(s, s, env, false);
    var mid, binds := Connect(s, id, Some(app), true, env), Binds(RouteOf(env, id, Some(app), true), id);
    ConnectKeeps(s, id, Some(app), true, env);
    KeptIsSound(s, mid, env, binds);
    var end := mid.(hs := Activated(mid.hs, StampOf(mid.stamps, app)));
    ActivatedKeeps(mid, StampOf(mid.stamps, app), env);
    KeepsTwice(s, mid, end, env, binds, false);
    KeepsIsSteps(s, end, env, binds);
  }

  lemma ActivatedKeeps(s: State, x: BusId, env: Env)
    requires Sound(s)
    ensures Keeps(s, s.(hs := Activated(s.hs, x)), env, false)
  {
    hide SameClocks, RetryWithin, NoNewLinks, Linked;
    KeepsNothingDone(s, env);
    if x in s.hs {
      var h := s.hs[x];
      MovedByEntry(s.hs, s.next, x, h.entry.(active := true), h.clock, env.conf.maxTry);
      assert h.(entry := h.entry.(active := true), clock := h.clock) == h.(entry := h.entry.(active := true));
    }
  }

  lemma ClosedByKeeps(s: State, app: AppRef, env: Env)
    requires Sound(s)
    ensures Keeps(s, s.(hs := ClosedBy(s.hs, s.stamps, app)), env, false)
  {
    hide Moved, Removed, UnreadySpread;
    KeepsNothingDone(s, env);
    var id := StampOf(s.stamps, app);
    if id in s.hs {
      SpreadKeeps(s, id, false, env);
      var mid := s.(hs := UnreadySpread(s.hs, id));
      KeptIsSound(s, mid, env, false);
      SpreadKeys(s.hs, id, false);
      RemovedKeeps(mid, id, env);
      KeepsTwice(s, mid, mid.(hs := Removed(mid.hs, mid.stamps, id)), env, false, false);
    }
  }

  lemma SpreadKeys(hs: Table, id: BusId, ready: bool)
    ensures SpreadTo(hs, id, ready).Keys == hs.Keys
  {
  }

  lemma SpreadEventsKeep(s: State, id: BusId, res: int, app: AppRef, env: Env)
    requires Sound(s)
    ensures Keeps(s, s.(hs := Updated(s.hs, id, res, env)), env, false)
    ensures Keeps(s, s.(hs := Disconnected(s.hs, s.stamps, app)), env, false)
  {
    hide Moved, ReadySpread, UnreadySpread;
    KeepsNothingDone(s, env);
    SpreadKeeps(s, id, true, env);
    SpreadKeeps(s, StampOf(s.stamps, app), false, env);
  }

  lemma ScheduledKeeps(s: State, id: BusId, env: Env)
    requires Sound(s) && id in s.hs && env.now > 0
    requires s.hs[id].clock.nextReconnect <= env.now ==> !OutOfTries(s.hs[id].clock, env.conf)
    ensures Keeps(s, s.(hs := Scheduled(s.hs, id, env)), env, false)
  {
    hide Moved, Counted;
    KeepsNothingDone(s, env);
    if s.hs[id].clock.nextReconnect <= env.now {
      CountedKeeps(s, id, 0, env);
    }
  }

  lemma ReadmittedKeeps(s: State, id: BusId, env: Env)
    requires Sound(s) && id in s.hs && env.Sane()
    ensures Keeps(s, Readmitted(s, id, env), env, false)
  {
    hide Moved, Again, Removed, AgainCode;
    KeepsNothingDone(s, env);
    RemovedKeeps(s, id, env);
    AgainKeeps(s, id, env);
  }

  lemma DroppedKeeps(s: State, id: BusId, env: Env)
    requires Sound(s) && env.Sane()
    ensures Keeps(s, Dropped(s, id, env), env, false)
  {
    hide Moved, Readmitted, Removed, Scheduled, OutOfTries, Sound;
    KeepsNothingDone(s, env);
    if id in s.hs {
      SoundIsGoodBut(s, id);
      RemovedKeeps(s, id, env);
      if !(s.hs[id].clock.nextReconnect <= env.now && OutOfTries(s.hs[id].clock, env.conf)) {
        var mid := s.(hs := Scheduled(s.hs, id, env));
        ScheduledKeeps(s, id, env);
        ScheduledKeys(s.hs, id, env);
        KeptIsSound(s, mid, env, false);
        ReadmittedKeeps(mid, id, env);
        KeepsTwice(s, mid, Readmitted(mid, id, env), env, false, false);
      }
    }
  }

  lemma SoundIsGoodBut(s: State, id: BusId)
    requires Sound(s)
    ensures GoodBut(s.hs, s.next, id)
  {
  }

  lemma ScheduledKeys(hs: Table, id: BusId, env: Env)
    requires id in hs
    ensures id in Scheduled(hs, id, env)
  {
  }

  lemma LeftKeeps(s: State, id: BusId, env: Env)
    requires Sound(s) && id in s.hs
    ensures Keeps(s, s.(hs := Left(s.hs, s.stamps, id, env)), env, false)
    ensures id in Left(s.hs, s.stamps, id, env)
  {
    hide Moved, Removed, Good;
    KeepsNothingDone(s, env);
    var p := s.hs[id].proxy;
    if p != 0 {
      ProxyIsThere(s, id);
      var mid := s.(hs := Freed(s.hs, id));
      MovedByFree(s.hs, s.next, id, env.conf.maxTry);
      KeptIsSound(s, mid, env, false);
      SoundIsGoodBut(mid, p);
      RemovedKeeps(mid, p, env);
      UnproxiedSurvives(mid.hs, s.stamps, p, id);
      KeepsTwice(s, mid, mid.(hs := Removed(mid.hs, s.stamps, p)), env, false, false);
    }
  }

  lemma ProxyIsThere(s: State, id: BusId)
    requires Sound(s) && id in s.hs && s.hs[id].proxy != 0
    ensures s.hs[id].proxy in s.hs && s.hs[id].proxy != id
  {
  }

  lemma JoinedKeeps(s: State, id: BusId, up: BusId, env: Env)
    requires Sound(s) && id in s.hs && up in s.hs
    ensures Keeps(s, s.(hs := Joined(s.hs, id, up)), env, true)
  {
    hide SameClocks, RetryWithin, NoNewLinks, Linked, AppsUnique, SpreadTo;
    var mid := s.(hs := Bound(s.hs, id, up));
    MovedByBind(s.hs, s.next, id, up, env.conf.maxTry);
    SpreadKeeps(mid, id, mid.hs[up].ready, env);
    KeepsTwice(s, mid, s.(hs := Joined(s.hs, id, up)), env, up != id, false);
  }

  lemma RedialedKeeps(s: State, id: BusId, env: Env)
    requires Sound(s) && id in s.hs && env.Sane()
    ensures Keeps(s, Redialed(s, id, env), env, true)
  {
    hide Moved, Connect, Woken, Linked, LostTimed, SerialsBelow, Binds, RouteOf;
    var app, active := s.hs[id].entry.app, s.hs[id].entry.active;
    var mid, binds := Connect(s, id, app, active, env), Binds(RouteOf(env, id, app, active), id);
    ConnectKeeps(s, id, app, active, env);
    KeptIsSound(s, mid, env, binds);
    WeakerKeeps(s, mid, env, binds);
    if id in mid.hs {
      WokenKeeps(mid, id, env);
      KeepsTwice(s, mid, Woken(mid, id, env), env, true, false);
    }
  }

  lemma WeakerKeeps(s: State, t: State, env: Env, binds: bool)
    requires Keeps(s, t, env, binds)
    ensures Keeps(s, t, env, true)
  {
  }

  lemma AwaitedKeeps(s: State, id: BusId, env: Env)
    requires Sound(s) && id in s.hs
    ensures Keeps(s, s.(hs := UnreadySpread(Awaiting(s.hs, id, env), id)), env, false)
  {
    hide Moved, Awaiting, UnreadySpread;
    var mid := s.(hs := Awaiting(s.hs, id, env));
    AwaitingKeeps(s, id, env);
    KeptIsSound(s, mid, env, false);
    SpreadKeeps(mid, id, false, env);
    KeepsTwice(s, mid, s.(hs := UnreadySpread(mid.hs, id)), env, false, false);
  }

  lemma ReroutedKeeps(s: State, id: BusId, up: BusId, env: Env)
    requires Sound(s) && id in s.hs && env.Sane()
    ensures Keeps(s, Rerouted(s, id, up, env), env, true)
  {
    hide Moved, Removed, ReadySpread, UnreadySpread, Awaiting, Redialed, Joined, NeedKeep;
    SpreadKeeps(s, id, true, env);
    WeakerKeeps(s, s.(hs := ReadySpread(s.hs, id)), env, false);
    SpreadKeeps(s, id, false, env);
    WeakerKeeps(s, s.(hs := UnreadySpread(s.hs, id)), env, false);
    RemovedKeeps(s, id, env);
    WeakerKeeps(s, s.(hs := Removed(s.hs, s.stamps, id)), env, false);
    AwaitedKeeps(s, id, env);
    WeakerKeeps(s, s.(hs := UnreadySpread(Awaiting(s.hs, id, env), id)), env, false);
    RedialedKeeps(s, id, env);
    if up in s.hs {
      JoinedKeeps(s, id, up, env);
    }
  }

  /** The entry of a reported peer is not lost; its timer may go. */
  lemma FoundIsSound(s: State, id: BusId, up: BusId, env: Env)
    requires Sound(s) && id in s.hs
    ensures Sound(s.(hs := s.hs[id := Found(s.hs[id], id, up, env)]))
  {
    hide Linked, AppsUnique, RetryWithin;
    SteppedByEntry(s.hs, s.next, id, Found(s.hs[id], id, up, env), env.conf.maxTry);
  }

  /** Cuts in what the topology has decided about a reported peer. */
  ghost function Settling(t: State, id: BusId, up: BusId, same: bool, env: Env): State
    requires id in t.hs
  {
    if same then Again(t, id, env)
    else if StillOnPath(t.hs[id], id, up, env) then t
    else
      var left := Left(t.hs, t.stamps, id, env);
      if id in left then Rerouted(t.(hs := left), id, up, env) else t.(hs := left)
  }

  lemma SettlingKeeps(t: State, id: BusId, up: BusId, same: bool, env: Env)
    requires Sound(t) && id in t.hs && env.Sane()
    ensures Keeps(t, Settling(t, id, up, same, env), env, true)
  {
    hide Moved, Again, Left, Rerouted;
    AgainKeeps(t, id, env);
    WeakerKeeps(t, Again(t, id, env), env, false);
    KeepsNothingDone(t, env);
    WeakerKeeps(t, t, env, false);
    LeftKeeps(t, id, env);
    var mid := t.(hs := Left(t.hs, t.stamps, id, env));
    KeptIsSound(t, mid, env, false);
    ReroutedKeeps(mid, id, up, env);
    KeepsTwice(t, mid, Rerouted(mid, id, up, env), env, false, true);
  }

  lemma PlacedSteps(s: State, id: BusId, up: BusId, env: Env)
    requires Sound(s) && env.Sane()
    ensures Steps(s, Placed(s, id, up, env), env)
  {
    hide Moved, Stepped, Again, Left, Rerouted, StillOnPath;
    KeepsNothingDone(s, env);
    KeepsIsSteps(s, s, env, false);
    if id in s.hs {
      var found, same := Found(s.hs[id], id, up, env), s.hs[id].entry.upstream == up;
      var t := s.(hs := s.hs[id := found]);
      FoundIsSound(s, id, up, env);
      SettlingKeeps(t, id, up, same, env);
      SteppedAfterFound(s.hs, s.next, id, found, Settling(t, id, up, same, env).hs, Settling(t, id, up, same, env).next,
                        env.conf.maxTry, true);
      assert Placed(s, id, up, env) == Settling(t, id, up, same, env);
    }
  }

  lemma LostSteps(s: State, id: BusId, env: Env)
    requires Sound(s) && env.now > 0
    ensures Steps(s, s.(hs := Lost(s.hs, id, env)), env)
  {
    hide Linked, AppsUnique, RetryWithin;
    KeepsNothingDone(s, env);
    KeepsIsSteps(s, s, env, false);
    if id in s.hs {
      var h := s.hs[id];
      SteppedByEntry(s.hs, s.next, id, h.(clock := LostAt(h.clock, env)), env.conf.maxTry);
    }
  }

  lemma DiscoveredKeeps(s: State, id: BusId, env: Env)
    requires Sound(s) && env.Sane()
    ensures Keeps(s, Discovered(s, id, env), env, false)
  {
    hide SameClocks, RetryWithin, NoNewLinks, Linked, Again;
    KeepsNothingDone(s, env);
    if id in s.hs {
      var h := s.hs[id];
      var mid := s.(hs := s.hs[id := h.(entry := h.entry.(waiting := false))]);
      MovedByEntry(s.hs, s.next, id, h.entry.(waiting := false), h.clock, env.conf.maxTry);
      assert h.(entry := h.entry.(waiting := false), clock := h.clock) == h.(entry := h.entry.(waiting := false));
      AgainKeeps(mid, id, env);
      KeepsTwice(s, mid, Again(mid, id, env), env, false, false);
    }
  }

  lemma RearmedKeeps(s: State, id: BusId, env: Env)
    requires GoodBut(s.hs, s.next, id) && id in s.hs && !Due(s.hs[id], env)
    requires s.hs[id].clock.lost ==> s.hs[id].clock.lostDeadline > 0
    ensures Keeps(s, s.(hs := Rearmed(s.hs, id)), env, false)
  {
    hide SameClocks, RetryWithin, NoNewLinks, Linked;
    var h := s.hs[id];
    var c := Rearmed(s.hs, id)[id].clock;
    MovedByEntry(s.hs, s.next, id, h.entry, c, env.conf.maxTry);
    assert h.(entry := h.entry, clock := c) == h.(clock := c);
  }

  lemma FiredKeeps(s: State, id: BusId, env: Env)
    requires GoodBut(s.hs, s.next, id) && id in s.hs && env.Sane()
    requires s.hs[id].clock.lost ==> s.hs[id].clock.lostDeadline > 0
    ensures Keeps(s, Fired(s, id, env), env, false)
  {
    hide Moved, Removed, Rearmed, Counted, Again, GoodBut;
    var c := s.hs[id].clock;
    RemovedKeeps(s, id, env);
    if !Due(s.hs[id], env) {
      RearmedKeeps(s, id, env);
    } else if !OutOfTries(c, env.conf) {
      CountedKeeps(s, id, DeadlineOf(c), env);
      var mid := s.(hs := Counted(s.hs, id, DeadlineOf(c), env));
      CountedKeys(s.hs, id, DeadlineOf(c), env);
      KeptIsSound(s, mid, env, false);
      AgainKeeps(mid, id, env);
      KeepsTwice(s, mid, Again(mid, id, env), env, false, false);
    }
  }

  lemma CountedKeys(hs: Table, id: BusId, previous: Time, env: Env)
    requires id in hs
    ensures id in Counted(hs, id, previous, env)
  {
  }

  lemma SilencedIsGoodBut(s: State, id: BusId)
    requires Sound(s) && id in s.hs
    ensures GoodBut(s.hs[id := Silenced(s.hs[id])], s.next, id)
    ensures s.hs[id].clock.lost ==> s.hs[id].clock.lostDeadline > 0
  {
    hide Linked;
    SameLinks(s.hs, s.hs[id := Silenced(s.hs[id])], {});
  }

  lemma TickedKeeps(s: State, id: BusId, serial: nat, env: Env)
    requires Sound(s) && env.Sane()
    ensures Keeps(s, Ticked(s, id, serial, env), env, false)
  {
    hide Fired, Moved, Good, GoodBut, Sound;
    KeepsNothingDone(s, env);
    if id in s.hs {
      var c := s.hs[id].clock.(timer := 0);
      var mid := s.(hs := s.hs[id := Silenced(s.hs[id])]);
      SilencedIsGoodBut(s, id);
      FiredKeeps(mid, id, env);
      var end := Fired(mid, id, env);
      MovedAfterFiring(s.hs, s.next, id, c, end.hs, end.next, env.conf.maxTry, false);
    }
  }

  /** Every event keeps the invariants, moves no deadline of an entry that stays lost, and respects
      the try limit. */
  lemma NextKeeps(s: State, e: Event)
    requires Sound(s) && e.env.Sane()
    ensures Steps(s, Next(s, e), e.env)
  {
    hide Moved, Stepped, Started, ClosedBy, Disconnected, Updated, Dropped, Placed, Lost, Discovered, Awaiting, Ticked, Good, AppFree;
    KeepsNothingDone(s, e.env);
    KeepsIsSteps(s, s, e.env, false);
    match e.what
    case StartConnect(id, app) => if AppFree(s.hs, id, Some(app)) { StartedSteps(s, id, app, e.env); }
    case Close(app) =>
      ClosedByKeeps(s, app, e.env);
      KeepsIsSteps(s, Next(s, e), e.env, false);
    case SendFailed(app) =>
      SpreadEventsKeep(s, 0, 0, app, e.env);
      KeepsIsSteps(s, Next(s, e), e.env, false);
    case EndpointUpdated(id, res) =>
      SpreadEventsKeep(s, id, res, 0, e.env);
      KeepsIsSteps(s, Next(s, e), e.env, false);
    case EndpointRemoved(id) =>
      DroppedKeeps(s, id, e.env);
      KeepsIsSteps(s, Next(s, e), e.env, false);
    case PeerUpdated(id, up) => PlacedSteps(Forgot(s), id, up, e.env);
    case PeerRemoved(id) => LostSteps(s, id, e.env);
    case DiscoveryPut(id) =>
      DiscoveredKeeps(Forgot(s), id, e.env);
      KeepsIsSteps(Forgot(s), Next(s, e), e.env, false);
    case DiscoveryDeleted(id) =>
      if id in s.hs {
        AwaitingKeeps(s, id, e.env);
      }
      KeepsIsSteps(s, Next(s, e), e.env, false);
    case TimerFired(id, serial) =>
      TickedKeeps(s, id, serial, e.env);
      KeepsIsSteps(s, Next(s, e), e.env, false);
  }

  /** After every run from the empty table, in any order of events and against any surroundings: links
      agree both ways, application handles are held once, lost entries have their timers, and a fixed
      positive try limit is never exceeded. */
  lemma {:induction false} EveryRun(events: seq<Event>, limit: nat)
    requires forall e :: e in events ==> e.env.Sane()
    requires limit > 0 ==> forall e :: e in events ==> e.env.conf.maxTry == limit
    ensures Sound(RunOf(Init, events))
    ensures limit > 0 ==> RetryWithin(RunOf(Init, events).hs, limit)
    decreases |events|
  {
    if events != [] {
      var front, e := events[..|events| - 1], events[|events| - 1];
      EveryRun(front, limit);
      assert e in events;
      NextKeeps(RunOf(Init, front), e);
    }
  }
}
