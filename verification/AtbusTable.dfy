/** The connection-handle table of the atbus connector as a value, the graph of its
    proxy links, and the specifications of the walks the connector makes over it. */
module AtbusTable {
  import opened Common
  import opened Reachability

  /** A 64-bit bus id; 0 means "none". */
  type BusId = nat
  /** Identity of an application-level connection handle object. */
  type AppRef = nat
  /** Microseconds; 0 means that no time is set. */
  type Time = nat

  /** What identifies an entry and its two connection flags. serial is the identity of the
      entry object, so that a re-created entry for the same bus id is told apart from the one
      it replaced. */
  datatype Entry = Entry(serial: nat, app: Option<AppRef>, active: bool, waiting: bool, upstream: BusId)

  /** Reconnect and lost-topology state. timer is the pending time-out of the entry's only
      timer, 0 when none is armed. */
  datatype Clock = Clock(retry: nat, nextReconnect: Time, lost: bool, lostDeadline: Time, timer: Time)

  /** One table entry. */
  datatype Handle = Handle(entry: Entry, clock: Clock, ready: bool, proxy: BusId, proxyFor: set<BusId>)

  type Table = map<BusId, Handle>

  /** The bus id an application handle carries; unstamped handles carry 0. */
  type Stamps = map<AppRef, BusId>

  function StampOf(stamps: Stamps, app: AppRef): BusId {
    if app in stamps then stamps[app] else 0
  }

  // ---------------------------------------------------------------- invariants

  /** Proxy links agree both ways, except that entries may still name a proxy in loose:
      the entries that a removal in progress has already taken out of the table. */
  ghost predicate Linked(hs: Table, loose: set<BusId>) {
    && 0 !in hs
    && loose !! hs.Keys
    && (forall p, x {:trigger x in hs[p].proxyFor} :: p in hs && x in hs[p].proxyFor ==> x in hs && hs[x].proxy == p)
    && (forall x {:trigger hs[x].proxy} :: x in hs && hs[x].proxy != 0 ==>
          (hs[x].proxy in hs && x in hs[hs[x].proxy].proxyFor) || hs[x].proxy in loose)
    && (forall x {:trigger hs[x].proxy} :: x in hs ==> hs[x].proxy != x)
  }

  /** An application handle is attached to at most one entry. */
  ghost predicate AppsUnique(hs: Table) {
    forall x, y {:trigger hs[x].entry.app, hs[y].entry.app} ::
      x in hs && y in hs && hs[x].entry.app.Some? && hs[x].entry.app == hs[y].entry.app ==> x == y
  }

  /** A lost entry has its timer armed, no later than its deadline. */
  ghost predicate LostTimed(hs: Table) {
    forall x :: x in hs && hs[x].clock.lost ==> 0 < hs[x].clock.timer <= hs[x].clock.lostDeadline
  }

  ghost predicate SerialsBelow(hs: Table, next: nat) {
    forall x :: x in hs ==> hs[x].entry.serial < next
  }

  ghost predicate RetryWithin(hs: Table, limit: nat) {
    forall x :: x in hs ==> hs[x].clock.retry <= limit
  }

  ghost predicate Good(hs: Table, next: nat) {
    Linked(hs, {}) && AppsUnique(hs) && LostTimed(hs) && SerialsBelow(hs, next)
  }

  /** The invariants, except that the timer of id may be in the middle of being replaced. */
  ghost predicate GoodBut(hs: Table, next: nat, id: BusId) {
    && Linked(hs, {}) && AppsUnique(hs) && SerialsBelow(hs, next)
    && (forall x :: x in hs && x != id && hs[x].clock.lost ==> 0 < hs[x].clock.timer <= hs[x].clock.lostDeadline)
  }

  /** The property a reader wants of links: x names p exactly when p is in the table and
      lists x; nobody proxies itself. */
  lemma LinkedMeansAgreement(hs: Table, x: BusId, p: BusId)
    requires Linked(hs, {}) && x in hs && p != 0
    ensures hs[x].proxy == p <==> (p in hs && x in hs[p].proxyFor)
    ensures x !in hs[x].proxyFor
  {
  }

  // ---------------------------------------------------------------- readiness spread

  /** Edges from each entry to the entries it proxies for. */
  ghost function Down(hs: Table): Graph {
    map x | x in hs :: hs[x].proxyFor
  }

  ghost function ReadyIds(hs: Table, ready: bool): set<BusId> {
    set x | x in hs && hs[x].ready == ready
  }

  /** The entries whose ready flag has to change when id is set to ready (or unready): those
      reachable from id through entries that still have the opposite flag. */
  ghost function Flips(hs: Table, id: BusId, ready: bool): set<BusId> {
    ReachSet(Down(hs), ReadyIds(hs, !ready), id)
  }

  function Refreshed(h: Handle): Handle {
    h.(ready := true, clock := h.clock.(retry := 0, nextReconnect := 0))
  }

  function MadeReady(h: Handle): Handle {
    h.(ready := true, clock := h.clock.(retry := 0, nextReconnect := 0, timer := if h.clock.lost then h.clock.timer else 0))
  }

  ghost function WithReady(hs: Table, s: set<BusId>): Table {
    map x | x in hs :: if x in s then MadeReady(hs[x]) else hs[x]
  }

  ghost function WithUnready(hs: Table, s: set<BusId>): Table {
    map x | x in hs :: if x in s then hs[x].(ready := false) else hs[x]
  }

  ghost function ReadySpread(hs: Table, id: BusId): Table {
    WithReady(hs, Flips(hs, id, true))
  }

  ghost function UnreadySpread(hs: Table, id: BusId): Table {
    WithUnready(hs, Flips(hs, id, false))
  }

  /** A spread of readiness in progress: id itself has been flipped, not yet its timer, and
      the rest of seen has been finished. */
  ghost function ReadySoFar(hs: Table, id: BusId, seen: set<BusId>): Table
    requires id in hs
  {
    WithReady(hs, seen)[id := Refreshed(hs[id])]
  }

  lemma FlipsNothing(hs: Table, id: BusId, ready: bool)
    requires id in hs && hs[id].ready == ready
    ensures Flips(hs, id, ready) == {}
    ensures WithReady(hs, {}) == hs == WithUnready(hs, {})
  {
    forall x | x in Flips(hs, id, ready) ensures false {
      ReachesEnds(Down(hs), ReadyIds(hs, !ready), id, x);
    }
  }

  lemma ReadySpreadNested(hs: Table, id: BusId, seen: set<BusId>, d: BusId)
    requires id in seen && id in hs
    ensures var more := Flips(ReadySoFar(hs, id, seen), d, true);
      && more == ReachSet(Down(hs), ReadyIds(hs, false) - seen, d)
      && ReadySpread(ReadySoFar(hs, id, seen), d) == ReadySoFar(hs, id, seen + more)
  {
    var cur := ReadySoFar(hs, id, seen);
    assert Down(cur) == Down(hs);
    assert ReadyIds(cur, false) == ReadyIds(hs, false) - seen;
    var more := Flips(cur, d, true);
    assert more <= ReadyIds(hs, false) - seen;
    ReadyTwice(hs, id, seen, more);
  }

  lemma ReadyTwice(hs: Table, id: BusId, seen: set<BusId>, more: set<BusId>)
    requires id in seen && id in hs && more !! seen
    ensures WithReady(ReadySoFar(hs, id, seen), more) == ReadySoFar(hs, id, seen + more)
  {
  }

  lemma UnreadySpreadNested(hs: Table, seen: set<BusId>, d: BusId)
    ensures var more := Flips(WithUnready(hs, seen), d, false);
      && more == ReachSet(Down(hs), ReadyIds(hs, true) - seen, d)
      && UnreadySpread(WithUnready(hs, seen), d) == WithUnready(hs, seen + more)
  {
    var cur := WithUnready(hs, seen);
    assert Down(cur) == Down(hs);
    assert ReadyIds(cur, true) == ReadyIds(hs, true) - seen;
  }

  /** Changing ready flags leaves links, applications and timers alone. */
  lemma WithUnreadyKeeps(hs: Table, s: set<BusId>)
    ensures WithUnready(hs, s).Keys == hs.Keys
    ensures forall loose :: Linked(hs, loose) ==> Linked(WithUnready(hs, s), loose)
    ensures AppsUnique(hs) ==> AppsUnique(WithUnready(hs, s))
  {
  }

  // ---------------------------------------------------------------- cascading removal

  /** Closing the application handle of entry d really reaches d: d has none, or the handle
      carries d's id. */
  ghost predicate Closable(hs: Table, stamps: Stamps, d: BusId)
    requires d in hs
  {
    hs[d].entry.app.None? || StampOf(stamps, hs[d].entry.app.value) == d
  }

  /** The proxy_for edges a removal follows. */
  ghost function Cascade(hs: Table, stamps: Stamps): Graph {
    map x | x in hs :: set d | d in hs[x].proxyFor && d in hs && Closable(hs, stamps, d)
  }

  /** What removing id takes out of the table. */
  ghost function Gone(hs: Table, stamps: Stamps, id: BusId): set<BusId> {
    ReachSet(Cascade(hs, stamps), hs.Keys, id)
  }

  /** Everything reachable from id down the proxy_for links, id included. */
  ghost function Below(hs: Table, id: BusId): set<BusId> {
    ReachSet(Down(hs), hs.Keys, id)
  }

  /** now is what is left of the surviving entry was when gone has left the table and the
      children in todo have not been unbound from id yet. */
  ghost predicate Survives(was: Handle, now: Handle, x: BusId, id: BusId, gone: set<BusId>, todo: set<BusId>) {
    && now == was.(
         proxyFor := was.proxyFor - gone,
         proxy := if was.proxy == id then (if x in todo then id else 0)
                  else if was.proxy in gone then 0 else was.proxy,
         ready := now.ready)
    && (now.ready ==> was.ready)
  }

  ghost predicate Pruned(hs: Table, id: BusId, gone: set<BusId>, todo: set<BusId>, cur: Table) {
    && cur.Keys == hs.Keys - gone
    && id in gone
    && (forall x :: x in cur ==> Survives(hs[x], cur[x], x, id, gone, todo))
  }

  /** What loses readiness while gone leaves the table on account of id: each entry that leaves
      below id spreads unreadiness first, and id itself, being out of the table by then, passes
      none on. */
  ghost function Lowered(hs: Table, id: BusId, gone: set<BusId>): set<BusId> {
    ReachFrom(Down(hs), ReadyIds(hs, true) - {id}, gone - {id})
  }

  ghost predicate Dimmed(hs: Table, id: BusId, gone: set<BusId>, cur: Table) {
    forall x :: x in cur ==> x in hs && cur[x].ready == (hs[x].ready && x !in Lowered(hs, id, gone))
  }

  ghost predicate Removing(hs: Table, stamps: Stamps, id: BusId, gone: set<BusId>, todo: set<BusId>, cur: Table) {
    && id in hs
    && todo <= hs[id].proxyFor
    && Walk(Cascade(hs, stamps), hs.Keys, id, gone, todo)
    && Pruned(hs, id, gone, todo, cur)
    && Dimmed(hs, id, gone, cur)
  }

  /** A survivor keeps everything but its links into gone and, when dimmed, its readiness. */
  function Survivor(h: Handle, gone: set<BusId>, dimmed: bool): Handle {
    h.(proxyFor := h.proxyFor - gone, proxy := if h.proxy in gone then 0 else h.proxy, ready := h.ready && !dimmed)
  }

  ghost function Without(hs: Table, gone: set<BusId>, lowered: set<BusId>): Table {
    map x | x in hs && x !in gone :: Survivor(hs[x], gone, x in lowered)
  }

  /** The table after removing id. */
  ghost function Removed(hs: Table, stamps: Stamps, id: BusId): Table {
    Without(hs, Gone(hs, stamps, id), Lowered(hs, id, Gone(hs, stamps, id)))
  }

  /** id has been erased from the table and from the list of the entry that proxies it. */
  ghost function TakenOut(hs: Table, id: BusId): Table
    requires id in hs
  {
    var rest, p := hs - {id}, hs[id].proxy;
    if p != 0 && p in rest then rest[p := rest[p].(proxyFor := rest[p].proxyFor - {id})] else rest
  }

  lemma NothingDimmed(hs: Table, id: BusId, cur: Table)
    requires forall x :: x in cur ==> x in hs && cur[x].ready == hs[x].ready
    ensures Dimmed(hs, id, {id}, cur)
  {
    assert {id} - {id} == {};
    assert Lowered(hs, id, {id}) == {};
  }

  lemma RemovingStart(hs: Table, stamps: Stamps, id: BusId, loose: set<BusId>)
    requires Linked(hs, loose) && id in hs
    ensures Removing(hs, stamps, id, {id}, hs[id].proxyFor, TakenOut(hs, id))
  {
    var cur := TakenOut(hs, id);
    WalkStart(Cascade(hs, stamps), hs.Keys, id);
    NothingDimmed(hs, id, cur);
    forall x | x in cur ensures Survives(hs[x], cur[x], x, id, {id}, hs[id].proxyFor) {
      if x != hs[id].proxy {
        assert id !in hs[x].proxyFor;
        assert hs[x].proxyFor - {id} == hs[x].proxyFor;
      }
    }
  }

  lemma PrunedDown(hs: Table, id: BusId, gone: set<BusId>, todo: set<BusId>, cur: Table, p: BusId, x: BusId)
    requires forall p, x :: p in hs && x in hs[p].proxyFor ==> x in hs && hs[x].proxy == p
    requires Pruned(hs, id, gone, todo, cur) && p in cur && x in cur[p].proxyFor
    ensures x in cur && cur[x].proxy == p
  {
    assert Survives(hs[p], cur[p], p, id, gone, todo);
    assert x in hs[p].proxyFor && x in hs && hs[x].proxy == p;
    assert Survives(hs[x], cur[x], x, id, gone, todo);
  }

  lemma PrunedUp(hs: Table, id: BusId, loose: set<BusId>, gone: set<BusId>, todo: set<BusId>, cur: Table, x: BusId)
    requires Linked(hs, loose) && Pruned(hs, id, gone, todo, cur) && x in cur && cur[x].proxy != 0
    ensures (cur[x].proxy in cur && x in cur[cur[x].proxy].proxyFor) || cur[x].proxy in loose || (cur[x].proxy == id && x in todo)
    ensures cur[x].proxy != x
  {
    assert Survives(hs[x], cur[x], x, id, gone, todo);
    var p := hs[x].proxy;
    if p != id && p in hs {
      assert Survives(hs[p], cur[p], p, id, gone, todo);
    }
  }

  lemma PrunedLinked(hs: Table, id: BusId, loose: set<BusId>, gone: set<BusId>, todo: set<BusId>, cur: Table)
    requires Linked(hs, loose) && Pruned(hs, id, gone, todo, cur)
    ensures Linked(cur, loose + {id})
    ensures todo == {} ==> Linked(cur, loose)
  {
    forall p, x | p in cur && x in cur[p].proxyFor ensures x in cur && cur[x].proxy == p {
      PrunedDown(hs, id, gone, todo, cur, p, x);
    }
    forall x | x in cur && cur[x].proxy != 0
      ensures cur[x].proxy != x
      ensures (cur[x].proxy in cur && x in cur[cur[x].proxy].proxyFor) || cur[x].proxy in loose || (cur[x].proxy == id && x in todo)
    {
      PrunedUp(hs, id, loose, gone, todo, cur, x);
    }
  }

  lemma RemovingAppsUnique(hs: Table, stamps: Stamps, id: BusId, gone: set<BusId>, todo: set<BusId>, cur: Table)
    requires AppsUnique(hs) && Removing(hs, stamps, id, gone, todo, cur)
    ensures AppsUnique(cur)
  {
    forall x | x in cur ensures cur[x].entry.app == hs[x].entry.app {
      assert Survives(hs[x], cur[x], x, id, gone, todo);
    }
  }

  /** Nothing points at a child that is just being unbound, so links still agree. */
  lemma UnboundChild(hs: Table, id: BusId, d: BusId, loose: set<BusId>)
    requires Linked(hs, loose) && id in loose && d in hs && hs[d].proxy == id
    ensures Linked(hs[d := hs[d].(proxy := 0)], loose)
  {
    var mid := hs[d := hs[d].(proxy := 0)];
    forall p, x | p in mid && x in mid[p].proxyFor ensures x in mid && mid[x].proxy == p {
      assert x in hs[p].proxyFor && hs[x].proxy == p && p in hs;
    }
  }

  lemma RemovingSkip(hs: Table, stamps: Stamps, id: BusId, loose: set<BusId>, gone: set<BusId>, todo: set<BusId>, cur: Table, d: BusId)
    requires Linked(hs, loose) && Removing(hs, stamps, id, gone, todo, cur)
    requires d in todo && (d !in cur || cur[d].proxy != id)
    ensures Removing(hs, stamps, id, gone, todo - {d}, cur)
  {
    WalkSkip(Cascade(hs, stamps), hs.Keys, id, gone, todo, d);
    forall x | x in cur ensures Survives(hs[x], cur[x], x, id, gone, todo - {d}) {
      assert Survives(hs[x], cur[x], x, id, gone, todo);
    }
  }

  /** A child whose application handle carries another id is unbound but stays. */
  lemma RemovingKeep(hs: Table, stamps: Stamps, id: BusId, gone: set<BusId>, todo: set<BusId>, cur: Table, d: BusId)
    requires Removing(hs, stamps, id, gone, todo, cur) && d in todo && d in cur && hs[d].proxy == id
    requires !Closable(hs, stamps, d)
    ensures Removing(hs, stamps, id, gone, todo - {d}, cur[d := cur[d].(proxy := 0)])
  {
    var mid := cur[d := cur[d].(proxy := 0)];
    WalkSkip(Cascade(hs, stamps), hs.Keys, id, gone, todo, d);
    forall x | x in mid ensures Survives(hs[x], mid[x], x, id, gone, todo - {d}) {
      assert Survives(hs[x], cur[x], x, id, gone, todo);
    }
  }

  /** low is cur after child d has been unbound and unreadiness has spread from it. */
  ghost predicate Unbound(cur: Table, d: BusId, low: Table) {
    && low.Keys == cur.Keys
    && (forall x :: x in cur ==>
          && low[x] == cur[x].(proxy := if x == d then 0 else cur[x].proxy, ready := low[x].ready)
          && (low[x].ready ==> cur[x].ready))
  }

  lemma UnreadyUnbinds(cur: Table, d: BusId, s: set<BusId>)
    requires d in cur
    ensures Unbound(cur, d, WithUnready(cur[d := cur[d].(proxy := 0)], s))
  {
  }

  /** The cascade edges of an intermediate table are those of the original one. */
  lemma CascadeInside(hs: Table, stamps: Stamps, id: BusId, gone: set<BusId>, todo: set<BusId>, cur: Table, low: Table, d: BusId)
    requires Pruned(hs, id, gone, todo, cur) && Unbound(cur, d, low)
    ensures Gone(low, stamps, d) == ReachSet(Cascade(hs, stamps), hs.Keys - gone, d)
  {
    forall x | x in cur ensures low[x].proxyFor == hs[x].proxyFor - gone && low[x].entry.app == hs[x].entry.app {
      assert Survives(hs[x], cur[x], x, id, gone, todo);
    }
    SameInside(Cascade(low, stamps), Cascade(hs, stamps), low.Keys, d);
  }

  lemma DeeperPruned(hs: Table, id: BusId, gone: set<BusId>, todo: set<BusId>, cur: Table, d: BusId, low: Table, more: set<BusId>, left: Table)
    requires 0 !in hs && id in hs && Pruned(hs, id, gone, todo, cur) && todo <= hs[id].proxyFor
    requires forall x :: x in hs[id].proxyFor ==> x in hs && hs[x].proxy == id
    requires d in todo && Unbound(cur, d, low) && d in more && more <= low.Keys && left.Keys == low.Keys - more
    requires forall x :: x in left ==> Survives(low[x], left[x], x, d, more, {})
    ensures Pruned(hs, id, gone + more, todo - {d}, left)
  {
    forall x | x in left ensures Survives(hs[x], left[x], x, id, gone + more, todo - {d}) {
      assert Survives(hs[x], cur[x], x, id, gone, todo);
      DeeperSurvivor(hs[x], cur[x], low[x], left[x], x, id, d, gone, todo, more);
    }
  }

  lemma DeeperWalk(hs: Table, stamps: Stamps, id: BusId, gone: set<BusId>, todo: set<BusId>, cur: Table, d: BusId, low: Table)
    requires Removing(hs, stamps, id, gone, todo, cur) && d in todo && d in cur && Closable(hs, stamps, d)
    requires Unbound(cur, d, low)
    ensures Walk(Cascade(hs, stamps), hs.Keys, id, gone + Gone(low, stamps, d), todo - {d})
    ensures d in Gone(low, stamps, d)
  {
    CascadeInside(hs, stamps, id, gone, todo, cur, low, d);
    WalkAbsorb(Cascade(hs, stamps), hs.Keys, id, gone, todo, d);
    ReachesSelf(Cascade(hs, stamps), hs.Keys - gone, d);
  }

  /** Who is still ready, and which links are left, before and after child d spreads unreadiness. */
  lemma ChildDims(hs: Table, id: BusId, gone: set<BusId>, todo: set<BusId>, cur: Table, d: BusId, mid: Table, low: Table)
    requires Pruned(hs, id, gone, todo, cur) && Dimmed(hs, id, gone, cur) && d in cur
    requires mid == cur[d := cur[d].(proxy := 0)] && low == UnreadySpread(mid, d)
    ensures var white := ReadyIds(hs, true) - {id};
      && ReadyIds(mid, true) == white - Lowered(hs, id, gone)
      && ReadyIds(low, true) - {d} == white - Lowered(hs, id, gone) - Flips(mid, d, false)
      && SameEdges(Down(hs), Down(mid), white - (gone - {id}))
      && SameEdges(Down(hs), Down(low), white - (gone - {id}))
  {
    forall x | x in cur ensures mid[x].proxyFor == hs[x].proxyFor - gone {
      assert Survives(hs[x], cur[x], x, id, gone, todo);
    }
    ReachFromIsClosed(Down(hs), ReadyIds(hs, true) - {id}, gone - {id});
    ReachSetIsClosed(Down(mid), ReadyIds(mid, true), d);
    assert Down(low) == Down(mid);
  }

  /** Unreadiness passed on before and while child d leaves with more is what all of them pass on. */
  lemma DeeperDimmed(hs: Table, id: BusId, gone: set<BusId>, todo: set<BusId>, cur: Table, d: BusId, mid: Table, low: Table, more: set<BusId>, left: Table)
    requires Pruned(hs, id, gone, todo, cur) && Dimmed(hs, id, gone, cur) && d in cur && d in more
    requires mid == cur[d := cur[d].(proxy := 0)] && low == UnreadySpread(mid, d) && more <= low.Keys
    requires left.Keys == low.Keys - more && Dimmed(low, d, more, left)
    ensures Dimmed(hs, id, gone + more, left)
  {
    var white, roots := ReadyIds(hs, true) - {id}, gone - {id};
    ChildDims(hs, id, gone, todo, cur, d, mid, low);
    assert gone + more - {id} == roots + more;
    ReachFromInStages(Down(hs), white, roots, Down(mid), d, Down(low), more);
    StagesDim(hs, id, gone, cur, d, mid, low, more, left);
  }

  lemma StagesDim(hs: Table, id: BusId, gone: set<BusId>, cur: Table, d: BusId, mid: Table, low: Table, more: set<BusId>, left: Table)
    requires cur.Keys == hs.Keys - gone && id in gone && d in cur && Dimmed(hs, id, gone, cur) && Dimmed(low, d, more, left)
    requires mid == cur[d := cur[d].(proxy := 0)] && low == UnreadySpread(mid, d) && left.Keys == low.Keys - more
    requires Lowered(hs, id, gone + more) == Lowered(hs, id, gone) + Flips(mid, d, false) + Lowered(low, d, more)
    ensures Dimmed(hs, id, gone + more, left)
  {
    hide Lowered, Flips;
    forall x | x in left ensures left[x].ready == (hs[x].ready && x !in Lowered(hs, id, gone + more)) {
      assert low[x].ready == (mid[x].ready && x !in Flips(mid, d, false));
      assert cur[x].ready == mid[x].ready;
    }
  }

  /** A child that is unbound, made unready and removed with all that hangs below it. */
  lemma RemovingDeeper(hs: Table, stamps: Stamps, id: BusId, gone: set<BusId>, todo: set<BusId>, cur: Table, d: BusId, mid: Table, low: Table, left: Table)
    requires 0 !in hs && Removing(hs, stamps, id, gone, todo, cur) && d in todo && d in cur && Closable(hs, stamps, d)
    requires forall x :: x in hs[id].proxyFor ==> x in hs && hs[x].proxy == id
    requires mid == cur[d := cur[d].(proxy := 0)] && low == UnreadySpread(mid, d)
    requires Unbound(cur, d, low) && left == Removed(low, stamps, d)
    ensures Removing(hs, stamps, id, hs.Keys - left.Keys, todo - {d}, left)
  {
    var more := Gone(low, stamps, d);
    DeeperWalk(hs, stamps, id, gone, todo, cur, d, low);
    assert hs.Keys - left.Keys == gone + more;
    RemovedSurvives(low, stamps, d);
    DeeperPruned(hs, id, gone, todo, cur, d, low, more, left);
    DeeperDimmed(hs, id, gone, todo, cur, d, mid, low, more, left);
  }

  /** The table right after child d has been unbound still satisfies what closing d needs. */
  lemma ChildUnbound(hs: Table, stamps: Stamps, id: BusId, loose: set<BusId>, gone: set<BusId>, todo: set<BusId>, cur: Table, d: BusId)
    requires Linked(hs, loose) && AppsUnique(hs)
    requires Removing(hs, stamps, id, gone, todo, cur) && d in todo && d in cur && cur[d].proxy == id
    ensures var mid := cur[d := cur[d].(proxy := 0)];
      Linked(mid, loose + {id}) && AppsUnique(mid) && mid.Keys < hs.Keys && Closable(mid, stamps, d) == Closable(hs, stamps, d)
  {
    PrunedLinked(hs, id, loose, gone, todo, cur);
    RemovingAppsUnique(hs, stamps, id, gone, todo, cur);
    UnboundChild(cur, id, d, loose + {id});
    assert id in hs.Keys && id !in cur.Keys;
    assert Survives(hs[d], cur[d], d, id, gone, todo);
  }

  /** One child of the entry being removed, whatever became of it. */
  lemma ChildClosed(hs: Table, stamps: Stamps, id: BusId, loose: set<BusId>, gone: set<BusId>, todo: set<BusId>, cur: Table, d: BusId, mid: Table, left: Table)
    requires Linked(hs, loose) && Removing(hs, stamps, id, gone, todo, cur) && d in todo && d in cur
    requires mid == cur[d := cur[d].(proxy := 0)]
    requires left == if Closable(hs, stamps, d) then Removed(UnreadySpread(mid, d), stamps, d) else mid
    ensures Removing(hs, stamps, id, hs.Keys - left.Keys, todo - {d}, left)
  {
    if Closable(hs, stamps, d) {
      UnreadyUnbinds(cur, d, Flips(mid, d, false));
      RemovingDeeper(hs, stamps, id, gone, todo, cur, d, mid, UnreadySpread(mid, d), left);
    } else {
      RemovingKeep(hs, stamps, id, gone, todo, cur, d);
      assert hs.Keys - cur.Keys == gone;
    }
  }

  lemma DeeperSurvivor(was: Handle, now: Handle, low: Handle, end: Handle, x: BusId, id: BusId, d: BusId,
                       gone: set<BusId>, todo: set<BusId>, more: set<BusId>)
    requires Survives(was, now, x, id, gone, todo) && Survives(low, end, x, d, more, {})
    requires low == now.(proxy := if x == d then 0 else now.proxy, ready := low.ready) && (low.ready ==> now.ready)
    requires id in gone && id !in more && 0 !in more && d in more && x !in more
    requires was.proxy == id || x !in todo
    ensures Survives(was, end, x, id, gone + more, todo - {d})
  {
    assert was.proxyFor - gone - more == was.proxyFor - (gone + more);
  }

  lemma RemovingDone(hs: Table, stamps: Stamps, id: BusId, gone: set<BusId>, cur: Table)
    requires Removing(hs, stamps, id, gone, {}, cur)
    ensures cur == Removed(hs, stamps, id)
  {
    WalkDone(Cascade(hs, stamps), hs.Keys, id, gone);
    forall x | x in cur ensures cur[x] == Survivor(hs[x], gone, x in Lowered(hs, id, gone)) {
      assert Survives(hs[x], cur[x], x, id, gone, {});
    }
  }

  // ---------------------------------------------------------------- what a removal means

  lemma RemovedSurvives(hs: Table, stamps: Stamps, id: BusId)
    requires id in hs
    ensures var gone, left := Gone(hs, stamps, id), Removed(hs, stamps, id);
      Pruned(hs, id, gone, {}, left) && Dimmed(hs, id, gone, left)
  {
    ReachSetIsClosed(Cascade(hs, stamps), hs.Keys, id);
  }

  /** Removal keeps every table invariant. */
  lemma RemovalKeepsGood(hs: Table, stamps: Stamps, id: BusId, loose: set<BusId>)
    requires Linked(hs, loose) && id in hs
    ensures var left := Removed(hs, stamps, id);
      && Linked(left, loose) && id !in left
      && (AppsUnique(hs) ==> AppsUnique(left))
      && (LostTimed(hs) ==> LostTimed(left))
      && (forall n :: SerialsBelow(hs, n) ==> SerialsBelow(left, n))
      && (forall n :: RetryWithin(hs, n) ==> RetryWithin(left, n))
  {
    var gone, left := Gone(hs, stamps, id), Removed(hs, stamps, id);
    RemovedSurvives(hs, stamps, id);
    PrunedLinked(hs, id, loose, gone, {}, left);
    forall x | x in left
      ensures left[x] == hs[x].(proxyFor := left[x].proxyFor, proxy := left[x].proxy, ready := left[x].ready)
    {
      assert Survives(hs[x], left[x], x, id, gone, {});
    }
  }

  /** Only entries below the removed one lose readiness. */
  lemma OnlyBelowDimmed(hs: Table, stamps: Stamps, id: BusId, x: BusId)
    requires id in hs && x in Removed(hs, stamps, id)
    ensures Removed(hs, stamps, id)[x].ready ==> hs[x].ready
    ensures x !in Below(hs, id) ==> Removed(hs, stamps, id)[x].ready == hs[x].ready
  {
    var white, gone, all := ReadyIds(hs, true) - {id}, Gone(hs, stamps, id), Below(hs, id);
    GoneIsBelow(hs, stamps, id);
    ReachSetIsClosed(Down(hs), hs.Keys, id);
    ReachFromWithin(Down(hs), white, gone - {id}, all);
  }

  /** A child that stays because its handle does not carry its id keeps its readiness. */
  lemma KeptChildStaysReady(hs: Table, stamps: Stamps, id: BusId, d: BusId)
    requires Linked(hs, {}) && id in hs && d in hs[id].proxyFor && !Closable(hs, stamps, d)
    ensures d in Removed(hs, stamps, id) && Removed(hs, stamps, id)[d].ready == hs[d].ready
  {
    var white, gone := ReadyIds(hs, true) - {id}, Gone(hs, stamps, id);
    if d in gone {
      ReachesEnds(Cascade(hs, stamps), hs.Keys, id, d);
    }
    if d in Lowered(hs, id, gone) {
      var c :| c in gone - {id} && Reaches(Down(hs), white, c, d);
      ReachesEnds(Down(hs), white, c, d);
    }
  }

  /** Removing id takes out exactly what is reachable from it down the proxy_for links, if and
      only if every entry it reaches below itself can be closed through its application handle. */
  lemma RemovesAllBelow(hs: Table, stamps: Stamps, id: BusId)
    requires Linked(hs, {}) && id in hs
    ensures Removed(hs, stamps, id).Keys == hs.Keys - Below(hs, id) <==>
            (forall d :: d in Below(hs, id) && d != id ==> Closable(hs, stamps, d))
  {
    var all, gone := Below(hs, id), Gone(hs, stamps, id);
    GoneIsBelow(hs, stamps, id);
    if forall d :: d in all && d != id ==> Closable(hs, stamps, d) {
      forall x | x in all ensures x in gone {
        var p :| IsPath(Down(hs), hs.Keys, p) && p[0] == id && p[|p| - 1] == x;
        AllClosable(hs, stamps, id, p);
      }
    }
    if Removed(hs, stamps, id).Keys == hs.Keys - all {
      forall d | d in all && d != id ensures Closable(hs, stamps, d) {
        assert d in gone;
        ReachesEnds(Cascade(hs, stamps), hs.Keys, id, d);
      }
    }
  }

  lemma GoneIsBelow(hs: Table, stamps: Stamps, id: BusId)
    requires id in hs
    ensures Gone(hs, stamps, id) <= Below(hs, id)
  {
    var c, all := Cascade(hs, stamps), Below(hs, id);
    ReachSetIsClosed(Down(hs), hs.Keys, id);
    forall x | x in Gone(hs, stamps, id) ensures x in all {
      var p :| IsPath(c, hs.Keys, p) && p[0] == id && p[|p| - 1] == x;
      assert Closed(c, hs.Keys, all);
      PathInClosed(c, hs.Keys, all, p);
    }
  }

  lemma {:induction false} AllClosable(hs: Table, stamps: Stamps, id: BusId, p: seq<BusId>)
    requires Linked(hs, {})
    requires forall d :: d in Below(hs, id) && d != id ==> Closable(hs, stamps, d)
    requires IsPath(Down(hs), hs.Keys, p) && p[0] == id
    ensures p[|p| - 1] in Gone(hs, stamps, id)
    decreases |p|
  {
    ReachSetIsClosed(Cascade(hs, stamps), hs.Keys, id);
    if |p| > 1 {
      var q := p[..|p| - 1];
      assert IsPath(Down(hs), hs.Keys, q) by {
        assert forall i :: 0 <= i < |q| ==> q[i] == p[i];
      }
      AllClosable(hs, stamps, id, q);
      var x, y := p[|p| - 2], p[|p| - 1];
      assert x in Down(hs) && p[|p| - 2 + 1] in Down(hs)[x];
      if y != id {
        assert Reaches(Down(hs), hs.Keys, id, y);
        assert y in Cascade(hs, stamps)[x];
      }
    }
  }

  /** An entry that nobody proxies is never swept away by removing another one. */
  lemma UnproxiedSurvives(hs: Table, stamps: Stamps, id: BusId, x: BusId)
    requires Linked(hs, {}) && id in hs
    requires x in hs && x != id && hs[x].proxy == 0
    ensures x in Removed(hs, stamps, id)
  {
    if x !in Removed(hs, stamps, id) {
      ReachesEnds(Cascade(hs, stamps), hs.Keys, id, x);
    }
  }

  // ---------------------------------------------------------------- what every step keeps

  /** Entries that existed before a step keep their lost flag and their deadline. */
  ghost predicate SameClocks(hs: Table, next: nat, hs': Table) {
    forall x :: x in hs' && hs'[x].entry.serial < next ==>
      && x in hs
      && hs[x].entry.serial == hs'[x].entry.serial
      && hs[x].clock.lost == hs'[x].clock.lost
      && hs[x].clock.lostDeadline == hs'[x].clock.lostDeadline
  }

  /** No entry names a proxy that it did not name before. */
  ghost predicate NoNewLinks(hs: Table, hs': Table) {
    forall x :: x in hs' && hs'[x].proxy != 0 ==> x in hs && hs[x].proxy == hs'[x].proxy
  }

  /** hs' comes from hs by steps of the connector: the invariants hold, serials only grow,
      clocks are kept, a try limit stays respected and, unless binds, no link is added. */
  ghost predicate Moved(hs: Table, next: nat, hs': Table, next': nat, limit: nat, binds: bool) {
    && next <= next'
    && Good(hs', next')
    && SameClocks(hs, next, hs')
    && (limit > 0 && RetryWithin(hs, limit) ==> RetryWithin(hs', limit))
    && (binds || NoNewLinks(hs, hs'))
  }

  lemma MovedNot(hs: Table, next: nat, limit: nat)
    requires Good(hs, next)
    ensures Moved(hs, next, hs, next, limit, false)
  {
  }

  lemma MovedTwice(hs: Table, next: nat, mid: Table, next': nat, end: Table, next'': nat, limit: nat, b1: bool, b2: bool)
    requires Moved(hs, next, mid, next', limit, b1) && Moved(mid, next', end, next'', limit, b2)
    ensures Moved(hs, next, end, next'', limit, b1 || b2)
  {
    assert SameClocks(hs, next, end) by {
      forall x | x in end && end[x].entry.serial < next ensures x in mid && mid[x].entry.serial < next {
      }
    }
  }

  lemma SameLinks(hs: Table, end: Table, loose: set<BusId>)
    requires Linked(hs, loose) && end.Keys == hs.Keys
    requires forall x :: x in hs ==> end[x].proxy == hs[x].proxy && end[x].proxyFor == hs[x].proxyFor
    ensures Linked(end, loose)
  {
  }

  /** Only flags and clocks change, entry by entry. */
  lemma MovedInPlace(hs: Table, next: nat, end: Table, limit: nat)
    requires Good(hs, next) && end.Keys == hs.Keys
    requires forall x :: x in hs ==> end[x].proxy == hs[x].proxy && end[x].proxyFor == hs[x].proxyFor
    requires forall x :: x in hs ==> end[x].entry == hs[x].entry
    requires forall x :: x in hs ==> end[x].clock.lost == hs[x].clock.lost && end[x].clock.lostDeadline == hs[x].clock.lostDeadline
    requires forall x :: x in hs && end[x].clock.lost ==> end[x].clock.timer == hs[x].clock.timer
    requires forall x :: x in hs ==> end[x].clock.retry <= hs[x].clock.retry
    ensures Moved(hs, next, end, next, limit, false)
  {
    SameLinks(hs, end, {});
  }

  lemma MovedByReady(hs: Table, next: nat, s: set<BusId>, limit: nat)
    requires Good(hs, next)
    ensures Moved(hs, next, WithReady(hs, s), next, limit, false)
  {
    MovedInPlace(hs, next, WithReady(hs, s), limit);
  }

  lemma MovedByUnready(hs: Table, next: nat, s: set<BusId>, limit: nat)
    requires Good(hs, next)
    ensures Moved(hs, next, WithUnready(hs, s), next, limit, false)
  {
    MovedInPlace(hs, next, WithUnready(hs, s), limit);
  }

  lemma MovedByRemoval(hs: Table, next: nat, stamps: Stamps, id: BusId, limit: nat)
    requires GoodBut(hs, next, id) && id in hs
    ensures Moved(hs, next, Removed(hs, stamps, id), next, limit, false)
    ensures id !in Removed(hs, stamps, id)
  {
    var left := Removed(hs, stamps, id);
    RemovalKeepsGood(hs, stamps, id, {});
    RemovedSurvives(hs, stamps, id);
    forall x | x in left ensures x in hs && left[x].entry == hs[x].entry && left[x].clock == hs[x].clock
      && (left[x].proxy == 0 || left[x].proxy == hs[x].proxy)
    {
      assert Survives(hs[x], left[x], x, id, Gone(hs, stamps, id), {});
    }
  }

  /** A fired timer is forgotten before the event is handled. */
  lemma MovedAfterFiring(hs: Table, next: nat, id: BusId, c: Clock, end: Table, next': nat, limit: nat, binds: bool)
    requires id in hs
    requires c.lost == hs[id].clock.lost && c.lostDeadline == hs[id].clock.lostDeadline && c.retry == hs[id].clock.retry
    requires Moved(hs[id := hs[id].(clock := c)], next, end, next', limit, binds)
    ensures Moved(hs, next, end, next', limit, binds)
  {
  }

  /** One entry changes its own clock, flags or upstream. */
  lemma MovedByEntry(hs: Table, next: nat, id: BusId, e: Entry, c: Clock, limit: nat)
    requires GoodBut(hs, next, id) && id in hs
    requires e.serial == hs[id].entry.serial && c.lost == hs[id].clock.lost && c.lostDeadline == hs[id].clock.lostDeadline
    requires c.lost ==> 0 < c.timer <= c.lostDeadline
    requires c.retry <= hs[id].clock.retry || limit == 0 || c.retry <= limit
    requires e.app.None? || (forall x :: x in hs && hs[x].entry.app == e.app ==> x == id)
    ensures Moved(hs, next, hs[id := hs[id].(entry := e, clock := c)], next, limit, false)
  {
    SameLinks(hs, hs[id := hs[id].(entry := e, clock := c)], {});
  }

  /** A new entry without links. */
  lemma MovedByFresh(hs: Table, next: nat, id: BusId, h: Handle, limit: nat)
    requires Good(hs, next) && id !in hs && id != 0
    requires h.entry.serial == next && h.proxy == 0 && h.proxyFor == {} && h.clock.retry == 0
    requires h.clock.lost ==> 0 < h.clock.timer <= h.clock.lostDeadline
    requires h.entry.app.None? || (forall x :: x in hs ==> hs[x].entry.app != h.entry.app)
    ensures Moved(hs, next, hs[id := h], next + 1, limit, false)
  {
    assert Linked(hs[id := h], {});
  }

  // ---------------------------------------------------------------- binding

  ghost function Unlisted(hs: Table, q: BusId, id: BusId): Table {
    if q != 0 && q in hs then hs[q := hs[q].(proxyFor := hs[q].proxyFor - {id})] else hs
  }

  /** id proxied by p, after leaving the proxy it had. */
  ghost function Bound(hs: Table, id: BusId, p: BusId): Table
    requires id in hs && p in hs
  {
    if p == id || hs[id].proxy == p then hs
    else
      var hs1 := Unlisted(hs, hs[id].proxy, id);
      var hs2 := hs1[id := hs1[id].(proxy := p)];
      hs2[p := hs2[p].(proxyFor := hs2[p].proxyFor + {id})]
  }

  lemma BoundPointwise(hs: Table, id: BusId, p: BusId, x: BusId)
    requires id in hs && p in hs && x in hs && p != id && hs[id].proxy != p && hs[id].proxy != id
    ensures Bound(hs, id, p).Keys == hs.Keys
    ensures Bound(hs, id, p)[x] == hs[x].(
      proxy := if x == id then p else hs[x].proxy,
      proxyFor := if x == p then hs[x].proxyFor + {id} else if x == hs[id].proxy && x != 0 then hs[x].proxyFor - {id} else hs[x].proxyFor)
  {
  }

  lemma BoundLinked(hs: Table, id: BusId, p: BusId)
    requires Linked(hs, {}) && id in hs && p in hs
    ensures Linked(Bound(hs, id, p), {})
  {
    var end := Bound(hs, id, p);
    if p != id && hs[id].proxy != p {
      forall x | x in hs ensures x in end && end[x] == hs[x].(
        proxy := if x == id then p else hs[x].proxy,
        proxyFor := if x == p then hs[x].proxyFor + {id} else if x == hs[id].proxy && x != 0 then hs[x].proxyFor - {id} else hs[x].proxyFor)
      {
        BoundPointwise(hs, id, p, x);
      }
      BoundPointwise(hs, id, p, id);
      RelinkedLinked(hs, id, p, end);
    }
  }

  lemma RelinkedDown(hs: Table, id: BusId, p: BusId, end: Table, q: BusId, x: BusId)
    requires Linked(hs, {}) && id in hs && p in hs && p != id && hs[id].proxy != p && end.Keys == hs.Keys
    requires q in hs && x in end[q].proxyFor
    requires forall x :: x in hs ==> end[x].proxy == if x == id then p else hs[x].proxy
    requires end[q].proxyFor == (if q == p then hs[q].proxyFor + {id}
                                 else if q == hs[id].proxy && q != 0 then hs[q].proxyFor - {id} else hs[q].proxyFor)
    ensures x in end && end[x].proxy == q
  {
    if q != p || x != id {
      assert x in hs[q].proxyFor;
    }
  }

  lemma RelinkedLinked(hs: Table, id: BusId, p: BusId, end: Table)
    requires Linked(hs, {}) && id in hs && p in hs && p != id && hs[id].proxy != p && end.Keys == hs.Keys
    requires forall x :: x in hs ==> end[x].proxy == if x == id then p else hs[x].proxy
    requires forall x :: x in hs ==>
      end[x].proxyFor == (if x == p then hs[x].proxyFor + {id}
                          else if x == hs[id].proxy && x != 0 then hs[x].proxyFor - {id} else hs[x].proxyFor)
    ensures Linked(end, {})
  {
    forall q, x | q in end && x in end[q].proxyFor ensures x in end && end[x].proxy == q {
      RelinkedDown(hs, id, p, end, q, x);
    }
    forall x | x in end && end[x].proxy != 0 ensures end[x].proxy in end && x in end[end[x].proxy].proxyFor {
      if x != id {
        assert hs[x].proxy in hs && x in hs[hs[x].proxy].proxyFor;
      }
    }
  }

  lemma MovedByBind(hs: Table, next: nat, id: BusId, p: BusId, limit: nat)
    requires Good(hs, next) && id in hs && p in hs
    ensures Moved(hs, next, Bound(hs, id, p), next, limit, p != id)
    ensures var end := Bound(hs, id, p);
      end.Keys == hs.Keys && end[id].proxy == (if p == id then hs[id].proxy else p)
      && (forall x :: x in hs ==> end[x].entry == hs[x].entry && end[x].clock == hs[x].clock && end[x].ready == hs[x].ready)
  {
    BoundLinked(hs, id, p);
    BoundRest(hs, id, p);
    MovedRelinked(hs, next, Bound(hs, id, p), limit);
  }

  lemma BoundRest(hs: Table, id: BusId, p: BusId)
    requires id in hs && p in hs && hs[id].proxy != id
    ensures var end := Bound(hs, id, p);
      end.Keys == hs.Keys && end[id].proxy == (if p == id then hs[id].proxy else p)
      && (forall x :: x in hs ==> end[x].entry == hs[x].entry && end[x].clock == hs[x].clock && end[x].ready == hs[x].ready)
  {
  }

  lemma MovedRelinked(hs: Table, next: nat, end: Table, limit: nat)
    requires Good(hs, next) && end.Keys == hs.Keys && Linked(end, {})
    requires forall x :: x in hs ==> end[x].entry == hs[x].entry && end[x].clock == hs[x].clock
    ensures Moved(hs, next, end, next, limit, true)
  {
  }

  /** id without a proxy, off the list of the one it had. */
  ghost function Freed(hs: Table, id: BusId): Table
    requires id in hs
  {
    var hs1 := Unlisted(hs, hs[id].proxy, id);
    hs1[id := hs1[id].(proxy := 0)]
  }

  lemma MovedByFree(hs: Table, next: nat, id: BusId, limit: nat)
    requires Good(hs, next) && id in hs
    ensures Moved(hs, next, Freed(hs, id), next, limit, false)
  {
    var end := Freed(hs, id);
    forall x | x in hs
      ensures end[x].proxy == if x == id then 0 else hs[x].proxy
      ensures end[x].proxyFor == if x == hs[id].proxy && x != 0 then hs[x].proxyFor - {id} else hs[x].proxyFor
      ensures end[x].entry == hs[x].entry && end[x].clock == hs[x].clock
    {
    }
    FreedLinked(hs, id, end);
    MovedRelinked(hs, next, end, limit);
  }

  lemma FreedLinked(hs: Table, id: BusId, end: Table)
    requires Linked(hs, {}) && id in hs && end.Keys == hs.Keys
    requires forall x :: x in hs ==> end[x].proxy == if x == id then 0 else hs[x].proxy
    requires forall x :: x in hs ==> end[x].proxyFor == if x == hs[id].proxy && x != 0 then hs[x].proxyFor - {id} else hs[x].proxyFor
    ensures Linked(end, {})
  {
    forall q, x | q in end && x in end[q].proxyFor ensures x in end && end[x].proxy == q {
      assert x in hs[q].proxyFor;
    }
    forall x | x in end && end[x].proxy != 0 ensures end[x].proxy in end && x in end[end[x].proxy].proxyFor {
      assert hs[x].proxy in hs && x in hs[hs[x].proxy].proxyFor;
    }
  }

  // ---------------------------------------------------------------- what every event keeps

  /** The lost-topology deadline of an entry does not move while the entry stays lost. */
  ghost predicate DeadlinesKept(hs: Table, next: nat, hs': Table) {
    forall x :: x in hs' && hs'[x].entry.serial < next ==>
      && x in hs
      && hs[x].entry.serial == hs'[x].entry.serial
      && (hs[x].clock.lost && hs'[x].clock.lost ==> hs[x].clock.lostDeadline == hs'[x].clock.lostDeadline)
  }

  ghost predicate Stepped(hs: Table, next: nat, hs': Table, next': nat, limit: nat) {
    && next <= next'
    && Good(hs', next')
    && DeadlinesKept(hs, next, hs')
    && (limit > 0 && RetryWithin(hs, limit) ==> RetryWithin(hs', limit))
  }

  lemma MovedIsStepped(hs: Table, next: nat, hs': Table, next': nat, limit: nat, binds: bool)
    requires Moved(hs, next, hs', next', limit, binds)
    ensures Stepped(hs, next, hs', next', limit)
  {
  }

  /** Finding a peer in the topology again ends its being lost. */
  lemma SteppedAfterFound(hs: Table, next: nat, id: BusId, h: Handle, end: Table, next': nat, limit: nat, binds: bool)
    requires id in hs && h.entry.serial == hs[id].entry.serial && !h.clock.lost && h.clock.retry == hs[id].clock.retry
    requires Moved(hs[id := h], next, end, next', limit, binds)
    ensures Stepped(hs, next, end, next', limit)
  {
    var mid := hs[id := h];
    forall x | x in end && end[x].entry.serial < next
      ensures x in hs && hs[x].entry.serial == end[x].entry.serial
        && (hs[x].clock.lost && end[x].clock.lost ==> hs[x].clock.lostDeadline == end[x].clock.lostDeadline)
    {
      assert x in mid && mid[x].clock.lost == end[x].clock.lost;
    }
  }

  lemma SteppedByEntry(hs: Table, next: nat, id: BusId, h: Handle, limit: nat)
    requires Good(hs, next) && id in hs
    requires h == hs[id].(clock := h.clock, entry := h.entry) && h.clock.retry == hs[id].clock.retry
    requires h.entry.serial == hs[id].entry.serial && h.entry.app == hs[id].entry.app
    requires h.clock.lost ==> 0 < h.clock.timer <= h.clock.lostDeadline
    requires hs[id].clock.lost && h.clock.lost ==> h.clock.lostDeadline == hs[id].clock.lostDeadline
    ensures Stepped(hs, next, hs[id := h], next, limit)
  {
    SameLinks(hs, hs[id := h], {});
  }
}
