/** Etcd keepalive entries of one cluster: check, put, retry and re-put, interleaved with value
    changes, lease grants and registration. Completion of a request is a separate event. */
module EtcdKeepalive {
  import opened Common

  type Id = nat
  type Value = string

  /** What a put wrote, or is writing. */
  datatype Written = Written(value: Value, lease: int)

  datatype Rpc = Idle | Get | Put(what: Written)

  /** One keepalive. stored is the last put that the server confirmed. */
  datatype Keepalive = Keepalive(
    value: Value,
    changed: bool,
    hasData: bool,
    check: Check,
    rpc: Rpc,
    stored: Option<Written>)

  /** Whether there is a checker, whether it has been run, and its verdict. */
  datatype Check = Check(has: bool, run: bool, passed: bool)

  const NEW := Keepalive("", true, false, Check(false, false, false), Idle, None)

  // ---------------------------------------------------------------- the property

  /** w is the current value, under the current lease unless there is none now. */
  predicate Current(w: Written, value: Value, lease: int) {
    w.value == value && (lease == 0 || w.lease == lease)
  }

  /** If nothing is marked as changed then the current value is being put or was the last one put. */
  predicate UpToDate(k: Keepalive, lease: int) {
    !k.changed ==>
      (k.rpc.Put? && Current(k.rpc.what, k.value, lease)) || (k.stored.Some? && Current(k.stored.value, k.value, lease))
  }

  predicate Ok(k: Keepalive, lease: int) {
    && (!k.check.run ==> k.changed)
    && (k.rpc.Get? ==> k.changed)
    && (k.rpc.Put? && !k.changed ==> Current(k.rpc.what, k.value, lease))
    && UpToDate(k, lease)
  }

  // ---------------------------------------------------------------- one keepalive

  function Marked(k: Keepalive): Keepalive {
    k.(changed := true)
  }

  function Closed(k: Keepalive, reset: bool): Keepalive {
    Marked(k).(rpc := Idle, hasData := k.hasData && !reset, check := Check(false, false, false))
  }

  /** One pass of process: the new state, and whether a retry is asked for. can says that requests
      can be created, started that a created one starts. */
  function Processed(k: Keepalive, lease: int, can: bool, started: bool): (Keepalive, bool) {
    if !k.rpc.Idle? then (k, false)
    else
      var c := if k.check.has then k.check else Check(false, true, true);
      if !c.run then
        (k.(check := c, rpc := if can && started then Get else Idle), !(can && started))
      else if c.passed && k.changed then
        (if !can || lease == 0 then (k.(check := c), true)
         else if !started then (k.(check := c, changed := false), true)
         else (k.(check := c, changed := false, rpc := Put(Written(k.value, lease))), false))
      else (k.(check := c), false)
  }

  /** Marked as changed and processed. */
  function Renewed(k: Keepalive, lease: int, can: bool, started: bool): Keepalive {
    Processed(Marked(k), lease, can, started).0
  }

  function AsksAgain(k: Keepalive, lease: int, can: bool, started: bool): bool {
    Processed(Marked(k), lease, can, started).1
  }

  lemma ProcessedKeepsOk(k: Keepalive, lease: int, can: bool, started: bool)
    requires Ok(k, lease) && started
    ensures Ok(Processed(k, lease, can, started).0, lease)
    ensures k.rpc.Idle? && k.changed && k.check.run && k.check.passed && can && lease != 0 ==>
      Processed(k, lease, can, started).0.rpc == Put(Written(k.value, lease))
  {
  }

  /** Whatever a keepalive was like before, marking it as changed and processing it makes it right
      under the lease of that moment. */
  lemma RenewedIsOk(k: Keepalive, lease: int, can: bool)
    ensures Ok(Renewed(k, lease, can, true), lease)
  {
  }

  /** A put has been answered. */
  function Answered(k: Keepalive, success: bool): Keepalive
    requires k.rpc.Put?
  {
    if success then k.(rpc := Idle, hasData := true, stored := Some(k.rpc.what)) else Marked(k.(rpc := Idle))
  }

  lemma AnsweredKeepsOk(k: Keepalive, lease: int, success: bool)
    requires k.rpc.Put? && Ok(k, lease)
    ensures Ok(Answered(k, success), lease)
  {
  }

  // ---------------------------------------------------------------- the cluster as a value

  datatype State = State(
    ks: map<Id, Keepalive>,
    actors: seq<Id>,
    retry: seq<Id>,
    lease: int,
    running: bool,
    closing: bool,
    connected: bool)

  const INIT := State(map[], [], [], 0, false, false, false)

  predicate NoRepeat(s: seq<Id>) {
    forall i, j :: 0 <= i < j < |s| ==> s[i] != s[j]
  }

  predicate Known(s: seq<Id>, m: map<Id, Keepalive>) {
    forall x :: x in s ==> x in m
  }

  /** No keepalive is registered, or queued for retry, twice. */
  predicate Sound(s: State) {
    && Known(s.actors, s.ks) && Known(s.retry, s.ks)
    && NoRepeat(s.actors) && NoRepeat(s.retry)
    && (s.closing ==> !s.running && s.lease == 0)
  }

  predicate Can(s: State) {
    s.connected && !s.closing
  }

  function Queued(s: State, id: Id): State {
    if s.closing || id in s.retry then s else s.(retry := s.retry + [id])
  }

  function Set(s: State, id: Id, k: Keepalive): State {
    s.(ks := s.ks[id := k])
  }

  function Activated(s: State, id: Id, started: bool): State
    requires id in s.ks
  {
    var (k, again) := Processed(s.ks[id], s.lease, Can(s), started);
    if again then Queued(Set(s, id, k), id) else Set(s, id, k)
  }

  /** Those in ids have been renewed. */
  function Renewals(s: State, ids: seq<Id>, starts: Id -> bool): map<Id, Keepalive> {
    map id | id in s.ks :: if id in ids then Renewed(s.ks[id], s.lease, Can(s), starts(id)) else s.ks[id]
  }

  /** Everything waiting for a retry has been renewed, and the list emptied, whatever asked for a retry
      meanwhile. */
  function Retried(s: State, starts: Id -> bool): State {
    if s.lease == 0 then s else s.(ks := Renewals(s, s.retry, starts), retry := [])
  }

  /** Those of ids that ask for a retry when they are renewed. */
  function Asking(s: State, ids: seq<Id>, starts: Id -> bool): seq<Id>
    requires Known(ids, s.ks)
  {
    if ids == [] then []
    else
      var front, id := ids[..|ids| - 1], ids[|ids| - 1];
      Asking(s, front, starts) +
      if AsksAgain(s.ks[id], s.lease, Can(s), starts(id)) && !s.closing then [id] else []
  }

  /** Every registered keepalive has been renewed. */
  function ActorsRenewed(s: State, starts: Id -> bool): State
    requires Known(s.actors, s.ks)
  {
    s.(ks := Renewals(s, s.actors, starts), retry := Asking(s, s.actors, starts))
  }

  /** starts tells which first requests start, restarts which requests of the retry pass after it. */
  function Leased(s: State, v: int, force: bool, starts: Id -> bool, restarts: Id -> bool): State
    requires Known(s.actors, s.ks)
  {
    var t := s.(lease := v);
    if v == 0 then t
    else if v == s.lease && !force then Retried(t, restarts)
    else Retried(ActorsRenewed(t, starts), restarts)
  }

  /** One occurrence is removed by putting the last element into its place. */
  function Popped(s: seq<Id>, id: Id): seq<Id> {
    if s == [] then []
    else if s[|s| - 1] == id then s[..|s| - 1]
    else if id in s then Replaced(s[..|s| - 1], id, s[|s| - 1])
    else s
  }

  function Replaced(s: seq<Id>, id: Id, sub: Id): seq<Id> {
    if s == [] then [] else [if s[0] == id then sub else s[0]] + Replaced(s[1..], id, sub)
  }

  function Removed(s: State, id: Id): State
    requires id in s.ks
  {
    var t := s.(actors := Popped(s.actors, id), retry := Popped(s.retry, id));
    if id in s.actors || id in s.retry then Set(t, id, Closed(s.ks[id], s.ks[id].hasData)) else t
  }

  function Shutdown(s: State): State {
    State(map id | id in s.ks :: if id in s.actors then Closed(s.ks[id], false) else s.ks[id], [], [], 0, false, true, s.connected)
  }

  // ---------------------------------------------------------------- events

  datatype Event =
    | Create(id: Id)
    | Register(id: Id, started: bool)
    | Unregister(id: Id)
    | NewValue(id: Id, value: Value, started: bool)
    | Checker(id: Id, has: bool)
    | GetDone(id: Id, success: bool, good: bool, passed: bool, started: bool)
    | PutDone(id: Id, success: bool, started: bool)
    | Lease(v: int, grant: bool, starts: Id -> bool, restarts: Id -> bool)
    | LeaseLost
    | Ticked(restarts: Id -> bool)
    | Connected(on: bool)
    | Opened
    | Shut

  function Registered(s: State, id: Id, started: bool): State
    requires id in s.ks
  {
    if s.closing || id in s.actors then s
    else
      var t := s.(actors := s.actors + [id]);
      if s.running && s.lease != 0 then Activated(t, id, started) else t
  }

  function Valued(s: State, id: Id, value: Value, started: bool): State
    requires id in s.ks
  {
    if s.ks[id].value == value then s
    else
      var t := Set(s, id, Marked(s.ks[id]).(value := value));
      if s.running && s.lease != 0 then Activated(t, id, started) else t
  }

  /** A check has been answered; good says that the answer could be read. */
  function Checked(s: State, id: Id, success: bool, good: bool, passed: bool, started: bool): State
    requires id in s.ks
  {
    var k := s.ks[id].(rpc := Idle);
    if !success || !good then Queued(Set(s, id, k), id)
    else Activated(Set(s, id, k.(check := Check(k.check.has, true, !k.check.has || passed))), id, started)
  }

  function PutAnswered(s: State, id: Id, success: bool, started: bool): State
    requires id in s.ks && s.ks[id].rpc.Put?
  {
    var t := Set(s, id, Answered(s.ks[id], success));
    if success then Activated(t, id, started) else Queued(t, id)
  }

  function Granted(s: State, v: int, grant: bool, starts: Id -> bool, restarts: Id -> bool): State
    requires Known(s.actors, s.ks)
  {
    if v == 0 || s.closing then s else Leased(s.(running := true), v, grant, starts, restarts)
  }

  function Next(s: State, e: Event): State
    requires Known(s.actors, s.ks)
  {
    match e
    case Create(id) => if id in s.ks then s else Set(s, id, NEW)
    case Register(id, started) => if id in s.ks then Registered(s, id, started) else s
    case Unregister(id) => if id in s.ks then Removed(s, id) else s
    case NewValue(id, value, started) => if id in s.ks then Valued(s, id, value, started) else s
    case Checker(id, has) => if id in s.ks then Set(s, id, s.ks[id].(check := s.ks[id].check.(has := has))) else s
    case GetDone(id, success, good, passed, started) =>
      if id in s.ks && s.ks[id].rpc.Get? then Checked(s, id, success, good, passed, started) else s
    case PutDone(id, success, started) =>
      if id in s.ks && s.ks[id].rpc.Put? then PutAnswered(s, id, success, started) else s
    case Lease(v, grant, starts, restarts) => Granted(s, v, grant, starts, restarts)
    case LeaseLost => s.(lease := 0)
    case Ticked(restarts) => if Can(s) then Retried(s, restarts) else s
    case Connected(on) => s.(connected := on)
    case Opened => s.(closing := false)
    case Shut => Shutdown(s)
  }

  // ---------------------------------------------------------------- what every event keeps

  lemma {:induction false} ReplacedMembers(s: seq<Id>, id: Id, sub: Id)
    requires NoRepeat(s) && sub !in s
    ensures |Replaced(s, id, sub)| == |s| && NoRepeat(Replaced(s, id, sub))
    ensures forall x :: x in Replaced(s, id, sub) <==> (x in s && x != id) || (x == sub && id in s)
    decreases |s|
  {
    if s != [] {
      assert s == [s[0]] + s[1..] && s[0] !in s[1..];
      ReplacedMembers(s[1..], id, sub);
    }
  }

  lemma PoppedMembers(s: seq<Id>, id: Id)
    requires NoRepeat(s)
    ensures NoRepeat(Popped(s, id))
    ensures forall x :: x in Popped(s, id) <==> x in s && x != id
  {
    if s != [] {
      var front, last := s[..|s| - 1], s[|s| - 1];
      assert s == front + [last] && last !in front;
      if last != id && id in s {
        ReplacedMembers(front, id, last);
      }
    }
  }

  lemma {:induction false} AskingMembers(s: State, ids: seq<Id>, starts: Id -> bool)
    requires Known(ids, s.ks) && NoRepeat(ids)
    ensures NoRepeat(Asking(s, ids, starts))
    ensures forall x :: x in Asking(s, ids, starts) <==>
      x in ids && !s.closing && AsksAgain(s.ks[x], s.lease, Can(s), starts(x))
    decreases |ids|
  {
    if ids != [] {
      var front, id := ids[..|ids| - 1], ids[|ids| - 1];
      assert ids == front + [id] && id !in front;
      AskingMembers(s, front, starts);
    }
  }

  lemma ActivatedIsSound(s: State, id: Id, started: bool)
    requires Sound(s) && id in s.ks
    ensures Sound(Activated(s, id, started))
  {
    hide Processed;
  }

  lemma RemovedIsSound(s: State, id: Id)
    requires Sound(s) && id in s.ks
    ensures Sound(Removed(s, id))
  {
    hide Popped;
    PoppedMembers(s.actors, id);
    PoppedMembers(s.retry, id);
  }

  lemma GrantedIsSound(s: State, v: int, grant: bool, starts: Id -> bool, restarts: Id -> bool)
    requires Sound(s)
    ensures Sound(Granted(s, v, grant, starts, restarts))
  {
    hide Processed, AsksAgain, Asking;
    AskingMembers(s.(running := true, lease := v), s.actors, starts);
  }

  lemma CheckedIsSound(s: State, id: Id, success: bool, good: bool, passed: bool, started: bool)
    requires Sound(s) && id in s.ks
    ensures Sound(Checked(s, id, success, good, passed, started))
  {
    hide Activated;
    var k := s.ks[id].(rpc := Idle);
    ActivatedIsSound(Set(s, id, k.(check := Check(k.check.has, true, !k.check.has || passed))), id, started);
  }

  lemma PutAnsweredIsSound(s: State, id: Id, success: bool, started: bool)
    requires Sound(s) && id in s.ks && s.ks[id].rpc.Put?
    ensures Sound(PutAnswered(s, id, success, started))
  {
    hide Activated, Answered;
    ActivatedIsSound(Set(s, id, Answered(s.ks[id], success)), id, started);
  }

  lemma NextIsSound(s: State, e: Event)
    requires Sound(s)
    ensures Sound(Next(s, e))
  {
    hide Processed, Activated, AsksAgain, Removed, Granted, Checked, PutAnswered;
    match e
    case Register(id, started) =>
      if id in s.ks && id !in s.actors {
        ActivatedIsSound(s.(actors := s.actors + [id]), id, started);
      }
    case Unregister(id) => if id in s.ks { RemovedIsSound(s, id); }
    case NewValue(id, value, started) =>
      if id in s.ks {
        ActivatedIsSound(Set(s, id, Marked(s.ks[id]).(value := value)), id, started);
      }
    case GetDone(id, success, good, passed, started) =>
      if id in s.ks {
        CheckedIsSound(s, id, success, good, passed, started);
      }
    case PutDone(id, success, started) =>
      if id in s.ks && s.ks[id].rpc.Put? {
        PutAnsweredIsSound(s, id, success, started);
      }
    case Lease(v, grant, starts, restarts) => GrantedIsSound(s, v, grant, starts, restarts);
    case _ =>
  }

  ghost function RunOf(s: State, events: seq<Event>): (t: State)
    requires Sound(s)
    ensures Sound(t)
    decreases |events|
  {
    if events == [] then s
    else
      var front, e := RunOf(s, events[..|events| - 1]), events[|events| - 1];
      NextIsSound(front, e);
      Next(front, e)
  }

  // ---------------------------------------------------------------- whole runs

  /** No request for id fails as it is started. */
  predicate StartsFor(e: Event, id: Id) {
    match e
    case Register(x, started) => x != id || started
    case NewValue(x, _, started) => x != id || started
    case GetDone(x, _, _, _, started) => x != id || started
    case PutDone(x, _, started) => x != id || started
    case Lease(_, _, starts, restarts) => starts(id) && restarts(id)
    case Ticked(restarts) => restarts(id)
    case _ => true
  }

  /** The event brings another lease, and id is not registered to be told. */
  predicate Misses(s: State, e: Event, id: Id) {
    e.Lease? && e.v != 0 && e.v != s.lease && !s.closing && id !in s.actors
  }

  /** In the whole run no request for id fails to start, and id misses no change of the lease. */
  ghost predicate Undisturbed(s: State, events: seq<Event>, id: Id)
    requires Sound(s)
  {
    && (forall e :: e in events ==> StartsFor(e, id))
    && (forall i :: 0 <= i < |events| && id in RunOf(s, events[..i]).ks ==> !Misses(RunOf(s, events[..i]), events[i], id))
  }

  ghost predicate OkFor(s: State, id: Id) {
    id in s.ks ==> Ok(s.ks[id], s.lease)
  }

  lemma ActivatedKeepsOk(s: State, id: Id, x: Id, started: bool)
    requires x in s.ks && (x != id || started) && OkFor(s, id)
    ensures OkFor(Activated(s, x, started), id)
  {
    if x == id {
      ProcessedKeepsOk(s.ks[id], s.lease, Can(s), true);
    }
  }

  lemma RetriedKeepsOk(s: State, restarts: Id -> bool, id: Id)
    requires OkFor(s, id) && restarts(id)
    ensures OkFor(Retried(s, restarts), id)
  {
    hide Processed, Ok;
    if id in s.ks {
      RenewedIsOk(s.ks[id], s.lease, Can(s));
    }
  }

  lemma GrantedKeepsOk(s: State, v: int, grant: bool, starts: Id -> bool, restarts: Id -> bool, id: Id)
    requires Sound(s) && OkFor(s, id) && starts(id) && restarts(id)
    requires v != 0 && v != s.lease && !s.closing && id in s.ks ==> id in s.actors
    ensures OkFor(Granted(s, v, grant, starts, restarts), id)
  {
    hide Processed, Ok, Retried;
    if v != 0 && !s.closing {
      var t := s.(running := true, lease := v);
      if v == s.lease && !grant {
        RetriedKeepsOk(t, restarts, id);
      } else {
        if id in s.ks {
          RenewedIsOk(s.ks[id], v, Can(s));
        }
        RetriedKeepsOk(ActorsRenewed(t, starts), restarts, id);
      }
    }
  }

  lemma RegisteredKeepsOk(s: State, id: Id, x: Id, started: bool)
    requires x in s.ks && (x != id || started) && OkFor(s, id)
    ensures OkFor(Registered(s, x, started), id)
  {
    hide Activated, Ok;
    ActivatedKeepsOk(s.(actors := s.actors + [x]), id, x, started);
  }

  lemma ValuedKeepsOk(s: State, id: Id, x: Id, value: Value, started: bool)
    requires x in s.ks && (x != id || started) && OkFor(s, id)
    ensures OkFor(Valued(s, x, value, started), id)
  {
    hide Activated;
    ActivatedKeepsOk(Set(s, x, Marked(s.ks[x]).(value := value)), id, x, started);
  }

  lemma CheckedKeepsOk(s: State, id: Id, x: Id, success: bool, good: bool, passed: bool, started: bool)
    requires x in s.ks && s.ks[x].rpc.Get? && (x != id || started) && OkFor(s, id)
    ensures OkFor(Checked(s, x, success, good, passed, started), id)
  {
    hide Activated;
    var k := s.ks[x].(rpc := Idle);
    ActivatedKeepsOk(Set(s, x, k.(check := Check(k.check.has, true, !k.check.has || passed))), id, x, started);
  }

  lemma PutAnsweredKeepsOk(s: State, id: Id, x: Id, success: bool, started: bool)
    requires x in s.ks && s.ks[x].rpc.Put? && (x != id || started) && OkFor(s, id)
    ensures OkFor(PutAnswered(s, x, success, started), id)
  {
    hide Activated;
    ActivatedKeepsOk(Set(s, x, Answered(s.ks[x], success)), id, x, started);
  }

  lemma NextKeepsOk(s: State, e: Event, id: Id)
    requires Sound(s) && OkFor(s, id) && StartsFor(e, id) && (id in s.ks ==> !Misses(s, e, id))
    ensures OkFor(Next(s, e), id)
  {
    hide Processed, Retried, Granted, Registered, Valued, Checked, PutAnswered, Sound;
    match e
    case Register(x, started) => if x in s.ks { RegisteredKeepsOk(s, id, x, started); }
    case NewValue(x, value, started) => if x in s.ks { ValuedKeepsOk(s, id, x, value, started); }
    case GetDone(x, success, good, passed, started) =>
      if x in s.ks && s.ks[x].rpc.Get? {
        CheckedKeepsOk(s, id, x, success, good, passed, started);
      }
    case PutDone(x, success, started) =>
      if x in s.ks && s.ks[x].rpc.Put? {
        PutAnsweredKeepsOk(s, id, x, success, started);
      }
    case Lease(v, grant, starts, restarts) => GrantedKeepsOk(s, v, grant, starts, restarts, id);
    case Ticked(restarts) => RetriedKeepsOk(s, restarts, id);
    case _ =>
  }

  lemma {:induction false} RunKeepsOk(s: State, events: seq<Event>, id: Id)
    requires Sound(s) && OkFor(s, id) && Undisturbed(s, events, id)
    ensures OkFor(RunOf(s, events), id)
    decreases |events|
  {
    if events != [] {
      var front, e := events[..|events| - 1], events[|events| - 1];
      assert forall i :: 0 <= i < |front| ==> front[..i] == events[..i] && front[i] == events[i];
      assert e in events;
      RunKeepsOk(s, front, id);
      NextKeepsOk(RunOf(s, front), e, id);
    }
  }

  /** After every run, a keepalive for which no request failed to start and which was registered whenever
      the lease changed: if it is not marked as changed, a put of its current value is in flight or the
      last confirmed put wrote it, under the current lease unless there is none now. */
  lemma EveryRun(events: seq<Event>, id: Id)
    requires Undisturbed(INIT, events, id)
    ensures var s := RunOf(INIT, events); id in s.ks ==> UpToDate(s.ks[id], s.lease)
  {
    RunKeepsOk(INIT, events, id);
  }

  /** A change of the lease makes every registered keepalive write again, under the new lease, as soon as
      nothing of it is in flight and its check allows. */
  lemma NewLeaseIsWritten(s: State, v: int, grant: bool, starts: Id -> bool, restarts: Id -> bool, id: Id)
    requires Sound(s) && id in s.actors && v != 0 && v != s.lease && Can(s) && starts(id)
    ensures var k, t := s.ks[id], Granted(s, v, grant, starts, restarts).ks[id];
      && (k.rpc.Idle? && (k.check.has ==> k.check.run && k.check.passed) ==> t.rpc == Put(Written(k.value, v)))
      && (k.rpc.Idle? && k.check.has && !k.check.run ==> t.rpc.Get? && t.changed)
      && (!k.rpc.Idle? ==> t == Marked(k))
  {
    var t := s.(running := true, lease := v);
    AskingMembers(t, s.actors, starts);
  }

  // ---------------------------------------------------------------- what the events mean

  /** s' differs from s in nothing but keepalive id and, at most, its place at the end of the retry list. */
  predicate OnlyAt(s: State, id: Id, s': State) {
    && id in s.ks && id in s'.ks && s' == s.(ks := s.ks[id := s'.ks[id]], retry := s'.retry)
    && (s'.retry == s.retry || (id !in s.retry && !s.closing && s'.retry == s.retry + [id]))
  }

  /** An attempt at keepalive k, which then is k': a put goes out exactly if nothing is in flight, a value is
      waiting, the check allows it, and a request can be made, with a lease, and starts; it carries the value
      and the lease. A check goes out exactly if there is one that has not been answered, and a request can be
      made and starts. Else nothing goes out. */
  predicate Attempted(k: Keepalive, k': Keepalive, lease: int, can: bool, started: bool) {
    var idle := k.rpc.Idle?;
    var allowed := k.check.has ==> k.check.run && k.check.passed;
    var asks := k.check.has && !k.check.run;
    && k'.value == k.value && k'.stored == k.stored && k'.hasData == k.hasData && k'.check.has == k.check.has
    && (!idle ==> k' == k)
    && (k.check.has ==> k'.check == k.check)
    && (k'.rpc.Put? && idle <==> idle && k.changed && allowed && can && lease != 0 && started)
    && (idle && k'.rpc.Put? ==> k'.rpc.what == Written(k.value, lease))
    && (k'.rpc.Get? && idle <==> idle && asks && can && started)
    && (k'.changed <==> k.changed && !(idle && allowed && can && lease != 0))
  }

  /** What asks for a retry: something was to be sent and was not. */
  predicate Fails(k: Keepalive, k': Keepalive) {
    k.rpc.Idle? && k'.rpc.Idle? && (if k.check.has && !k.check.run then true else k.changed && (k.check.has ==> k.check.passed))
  }

  lemma ProcessedMeans(k: Keepalive, lease: int, can: bool, started: bool)
    ensures var (k', again) := Processed(k, lease, can, started); Attempted(k, k', lease, can, started) && (again <==> Fails(k, k'))
  {
  }

  /** s' is s after an attempt at id, which was k then. */
  predicate AttemptedAt(s: State, id: Id, k: Keepalive, started: bool, s': State) {
    && OnlyAt(s, id, s') && Attempted(k, s'.ks[id], s.lease, Can(s), started)
    && (Fails(k, s'.ks[id]) && !s.closing ==> id in s'.retry) && (!Fails(k, s'.ks[id]) ==> s'.retry == s.retry)
  }

  lemma ActivatedMeans(s: State, id: Id, k: Keepalive, started: bool)
    requires id in s.ks
    ensures AttemptedAt(s, id, k, started, Activated(Set(s, id, k), id, started))
  {
    hide Processed, Attempted, Fails;
    ProcessedMeans(k, s.lease, Can(s), started);
  }

  /** A check has been answered. An answer that failed or could not be read asks for a retry and puts nothing. A
      check that says no leaves the keepalive idle, with its value still waiting. One that says yes, or one that
      nobody asks any more, is followed by an attempt: a put of the waiting value under the lease. */
  lemma CheckDecides(s: State, id: Id, success: bool, good: bool, passed: bool, started: bool)
    requires Known(s.actors, s.ks) && id in s.ks && s.ks[id].rpc.Get?
    ensures var k, s' := s.ks[id], Next(s, GetDone(id, success, good, passed, started));
      && OnlyAt(s, id, s')
      && (!(success && good) ==> s'.ks[id] == k.(rpc := Idle) && (s.closing || id in s'.retry))
      && (success && good && k.check.has && !passed ==>
            s'.ks[id] == k.(rpc := Idle, check := Check(true, true, false)) && s'.retry == s.retry)
      && (success && good && (k.check.has ==> passed) && k.changed ==>
            && (s'.ks[id].rpc == Put(Written(k.value, s.lease)) <==> Can(s) && s.lease != 0 && started)
            && (s'.ks[id].rpc.Idle? <==> !(Can(s) && s.lease != 0 && started))
            && (s'.ks[id].rpc.Idle? && !s.closing ==> id in s'.retry))
      && (success && good && (k.check.has ==> passed) && !k.changed ==> s'.ks[id].rpc.Idle? && s'.retry == s.retry)
  {
    hide Activated;
    var k := s.ks[id].(rpc := Idle);
    var c := k.(check := Check(k.check.has, true, !k.check.has || passed));
    assert s.ks[id := c] == s.ks[id := k][id := c];
    ActivatedMeans(s, id, c, started);
  }

  /** A put has been answered: what it carried is what is stored from then on, or else the value waits again and
      a retry is asked for. After a success a value that waits meanwhile is put next. */
  lemma PutSettles(s: State, id: Id, success: bool, started: bool)
    requires Known(s.actors, s.ks) && id in s.ks && s.ks[id].rpc.Put?
    ensures var k, s' := s.ks[id], Next(s, PutDone(id, success, started));
      && OnlyAt(s, id, s')
      && (success ==>
            && s'.ks[id].stored == Some(k.rpc.what) && s'.ks[id].hasData && s'.ks[id].value == k.value
            && (k.changed && (k.check.has ==> k.check.run && k.check.passed) && Can(s) && s.lease != 0 && started ==>
                  s'.ks[id].rpc == Put(Written(k.value, s.lease)) && !s'.ks[id].changed)
            && (!k.changed && (k.check.has ==> k.check.run) ==> s'.ks[id].rpc.Idle? && !s'.ks[id].changed && s'.retry == s.retry))
      && (!success ==> s'.ks[id] == k.(rpc := Idle, changed := true) && (s.closing || id in s'.retry))
  {
    hide Activated;
    ActivatedMeans(s, id, Answered(s.ks[id], success), started);
  }

  /** Another value is taken, waits, and is attempted at once while the cluster runs with a lease. */
  lemma ValueWaits(s: State, id: Id, value: Value, started: bool)
    requires Known(s.actors, s.ks) && id in s.ks
    ensures var k, s' := s.ks[id], Next(s, NewValue(id, value, started));
      && (value == k.value ==> s' == s)
      && (value != k.value && s.running && s.lease != 0 ==> AttemptedAt(s, id, k.(value := value, changed := true), started, s'))
      && (value != k.value && !(s.running && s.lease != 0) ==> s' == s.(ks := s.ks[id := k.(value := value, changed := true)]))
  {
    hide Activated, AttemptedAt;
    ActivatedMeans(s, id, s.ks[id].(value := value, changed := true), started);
  }

  /** A keepalive is registered once, at the end, and attempted at once while the cluster runs with a lease; the
      cluster takes none while it closes. */
  lemma RegisteringMeans(s: State, id: Id, started: bool)
    requires Known(s.actors, s.ks) && id in s.ks
    ensures var s' := Next(s, Register(id, started));
      && (s.closing || id in s.actors ==> s' == s)
      && (!s.closing && id !in s.actors ==>
            && s'.actors == s.actors + [id]
            && (s.running && s.lease != 0 ==> AttemptedAt(s.(actors := s.actors + [id]), id, s.ks[id], started, s'))
            && (!(s.running && s.lease != 0) ==> s' == s.(actors := s.actors + [id])))
  {
    hide Activated, Attempted, Fails;
    var t := s.(actors := s.actors + [id]);
    assert Set(t, id, s.ks[id]) == t;
    ActivatedMeans(t, id, s.ks[id], started);
  }

  /** A keepalive that is removed is on neither list afterwards, and has nothing in flight and no checker. Nobody
      else leaves a list, and nothing else changes. */
  lemma UnregisteringMeans(s: State, id: Id)
    requires Sound(s) && id in s.ks
    ensures var k, s' := s.ks[id], Next(s, Unregister(id));
      && s' == s.(ks := s'.ks, actors := s'.actors, retry := s'.retry) && id in s'.ks && s'.ks == s.ks[id := s'.ks[id]]
      && (forall x :: x in s'.actors <==> x in s.actors && x != id)
      && (forall x :: x in s'.retry <==> x in s.retry && x != id)
      && s'.ks[id] == if id in s.actors || id in s.retry then k.(changed := true, hasData := false, rpc := Idle, check := Check(false, false, false)) else k
  {
    hide Popped;
    PoppedMembers(s.actors, id);
    PoppedMembers(s.retry, id);
  }

  /** A lease has come. Those it concerns, everyone registered when the lease is new or granted and those waiting
      for a retry when it is not, have their values waiting and are attempted under it; nobody else changes, and
      nobody waits for a retry any more. */
  lemma LeaseMeans(s: State, v: int, grant: bool, starts: Id -> bool, restarts: Id -> bool, id: Id)
    requires Sound(s) && id in s.ks
    ensures var k, s' := s.ks[id], Next(s, Lease(v, grant, starts, restarts));
      && (v == 0 || s.closing ==> s' == s)
      && (v != 0 && !s.closing ==>
            && s' == s.(ks := s'.ks, retry := [], lease := v, running := true) && s'.ks.Keys == s.ks.Keys
            && (v == s.lease && !grant && id in s.retry ==> Attempted(k.(changed := true), s'.ks[id], v, Can(s), restarts(id)))
            && (v == s.lease && !grant && id !in s.retry ==> s'.ks[id] == k)
            && ((v != s.lease || grant) && id !in s.actors ==> s'.ks[id] == k)
            && ((v != s.lease || grant) && id in s.actors ==>
                  exists mid :: Attempted(k.(changed := true), mid, v, Can(s), starts(id)) &&
                    (if Fails(k.(changed := true), mid) then Attempted(mid.(changed := true), s'.ks[id], v, Can(s), restarts(id)) else s'.ks[id] == mid)))
  {
    hide Attempted, Fails, Processed, Asking;
    if v != 0 && !s.closing {
      var k, t := Marked(s.ks[id]), s.(running := true, lease := v);
      var mid := Renewed(s.ks[id], v, Can(s), starts(id));
      ProcessedMeans(k, v, Can(s), restarts(id));
      ProcessedMeans(k, v, Can(s), starts(id));
      ProcessedMeans(Marked(mid), v, Can(s), restarts(id));
      AskingMembers(t, s.actors, starts);
    }
  }

  /** A retry pass attempts those that wait for it, with a lease and a connection, and lets nobody wait. */
  lemma RetryMeans(s: State, restarts: Id -> bool, id: Id)
    requires Sound(s) && id in s.ks
    ensures var k, s' := s.ks[id], Next(s, Ticked(restarts));
      && (!Can(s) || s.lease == 0 ==> s' == s)
      && (Can(s) && s.lease != 0 ==>
            && s' == s.(ks := s'.ks, retry := []) && s'.ks.Keys == s.ks.Keys
            && (id in s.retry ==> Attempted(k.(changed := true), s'.ks[id], s.lease, true, restarts(id)))
            && (id !in s.retry ==> s'.ks[id] == k))
  {
    hide Attempted, Processed;
    ProcessedMeans(Marked(s.ks[id]), s.lease, Can(s), restarts(id));
  }

  /** Closing takes the lease away, empties both lists and closes whoever was registered. */
  lemma ShutMeans(s: State, id: Id)
    requires Known(s.actors, s.ks) && id in s.ks
    ensures var k, s' := s.ks[id], Next(s, Shut);
      && s'.actors == [] == s'.retry && s'.lease == 0 && !s'.running && s'.closing && s'.connected == s.connected && s'.ks.Keys == s.ks.Keys
      && s'.ks[id] == if id in s.actors then k.(changed := true, rpc := Idle, check := Check(false, false, false)) else k
  {
  }

  /** The remaining events change one thing each; answers to requests that are not in flight, and events about
      keepalives that do not exist, change nothing. */
  lemma RestMeans(s: State, e: Event)
    requires Known(s.actors, s.ks)
    ensures var s' := Next(s, e);
      match e
      case Create(id) => s' == if id in s.ks then s else s.(ks := s.ks[id := Keepalive("", true, false, Check(false, false, false), Idle, None)])
      case Checker(id, has) => (id in s.ks ==> s' == s.(ks := s.ks[id := s.ks[id].(check := s.ks[id].check.(has := has))])) && (id !in s.ks ==> s' == s)
      case LeaseLost => s' == s.(lease := 0)
      case Connected(on) => s' == s.(connected := on)
      case Opened => s' == s.(closing := false)
      case GetDone(id, _, _, _, _) => (id in s.ks && s.ks[id].rpc.Get?) || s' == s
      case PutDone(id, _, _) => (id in s.ks && s.ks[id].rpc.Put?) || s' == s
      case Register(id, _) => id in s.ks || s' == s
      case Unregister(id) => id in s.ks || s' == s
      case NewValue(id, _, _) => id in s.ks || s' == s
      case _ => true
  {
    hide Activated, Popped, Granted, Retried, Shutdown, Checked, PutAnswered;
  }

  // ---------------------------------------------------------------- a check that says no

  /** The event closes id, or takes its checker away. */
  predicate FreesFromCheck(e: Event, id: Id) {
    e == Unregister(id) || e == Checker(id, false) || e.Shut?
  }

  ghost predicate Barred(s: State, id: Id) {
    id in s.ks && s.ks[id].rpc.Idle? && s.ks[id].check == Check(true, true, false)
  }

  /** An attempt at a keepalive whose check said no does nothing, even with a value that waits. */
  lemma BarredSendsNothing(k: Keepalive, lease: int, can: bool, started: bool)
    requires k.rpc.Idle? && k.check == Check(true, true, false)
    ensures Processed(k, lease, can, started) == (k, false)
  {
  }

  lemma BarredActivated(s: State, x: Id, started: bool, id: Id)
    requires Barred(s, id) && x in s.ks
    ensures Barred(Activated(s, x, started), id)
  {
    hide Processed;
    BarredSendsNothing(s.ks[id], s.lease, Can(s), started);
  }

  lemma BarredRetried(s: State, restarts: Id -> bool, id: Id)
    requires Barred(s, id)
    ensures Barred(Retried(s, restarts), id)
  {
    hide Processed;
    BarredSendsNothing(Marked(s.ks[id]), s.lease, Can(s), restarts(id));
  }

  lemma BarredGranted(s: State, v: int, grant: bool, starts: Id -> bool, restarts: Id -> bool, id: Id)
    requires Sound(s) && Barred(s, id)
    ensures Barred(Granted(s, v, grant, starts, restarts), id)
  {
    hide Processed, Asking, Retried;
    if v != 0 && !s.closing {
      var t := s.(running := true, lease := v);
      BarredSendsNothing(Marked(t.ks[id]), v, Can(t), starts(id));
      BarredRetried(t, restarts, id);
      BarredRetried(ActorsRenewed(t, starts), restarts, id);
    }
  }

  lemma BarredChecked(s: State, x: Id, success: bool, good: bool, passed: bool, started: bool, id: Id)
    requires Barred(s, id) && x in s.ks && s.ks[x].rpc.Get?
    ensures Barred(Checked(s, x, success, good, passed, started), id)
  {
    hide Activated;
    var k := s.ks[x].(rpc := Idle);
    BarredActivated(Set(s, x, k.(check := Check(k.check.has, true, !k.check.has || passed))), x, started, id);
  }

  lemma BarredAnswered(s: State, x: Id, success: bool, started: bool, id: Id)
    requires Barred(s, id) && x in s.ks && s.ks[x].rpc.Put?
    ensures Barred(PutAnswered(s, x, success, started), id)
  {
    hide Activated;
    BarredActivated(Set(s, x, Answered(s.ks[x], success)), x, started, id);
  }

  lemma BarredStays(s: State, e: Event, id: Id)
    requires Sound(s) && Barred(s, id) && !FreesFromCheck(e, id)
    ensures Barred(Next(s, e), id)
  {
    hide Activated, Processed, Retried, Granted, Popped, Sound, Known, NoRepeat, Closed, Checked, PutAnswered;
    match e
    case Register(x, started) => if x in s.ks { BarredActivated(s.(actors := s.actors + [x]), x, started, id); }
    case NewValue(x, value, started) =>
      if x in s.ks {
        BarredActivated(Set(s, x, Marked(s.ks[x]).(value := value)), x, started, id);
      }
    case GetDone(x, success, good, passed, started) =>
      if x in s.ks && s.ks[x].rpc.Get? {
        BarredChecked(s, x, success, good, passed, started, id);
      }
    case PutDone(x, success, started) =>
      if x in s.ks && s.ks[x].rpc.Put? {
        BarredAnswered(s, x, success, started, id);
      }
    case Lease(v, grant, starts, restarts) => BarredGranted(s, v, grant, starts, restarts, id);
    case Ticked(restarts) => BarredRetried(s, restarts, id);
    case _ =>
  }

  lemma {:induction false} BarredRun(s: State, events: seq<Event>, id: Id)
    requires Sound(s) && Barred(s, id) && forall e :: e in events ==> !FreesFromCheck(e, id)
    ensures Barred(RunOf(s, events), id)
    decreases |events|
  {
    if events != [] {
      var front, e := events[..|events| - 1], events[|events| - 1];
      assert e in events && forall x :: x in front ==> x in events;
      BarredRun(s, front, id);
      BarredStays(RunOf(s, front), e, id);
    }
  }

  /** In every run, after a check that said no, nothing of the keepalive is put, whatever values, leases and
      retries come, until it is closed or its checker is taken away: a key that somebody else holds is not
      overwritten. */
  lemma RefusedIsNotPut(before: seq<Event>, id: Id, started: bool, after: seq<Event>)
    requires var s := RunOf(INIT, before); id in s.ks && s.ks[id].rpc.Get? && s.ks[id].check.has
    requires forall e :: e in after ==> !FreesFromCheck(e, id)
    ensures var s := RunOf(INIT, before + [GetDone(id, true, true, false, started)] + after); id in s.ks && s.ks[id].rpc.Idle?
  {
    var s, e := RunOf(INIT, before), GetDone(id, true, true, false, started);
    CheckDecides(s, id, true, true, false, started);
    RunOfMore(INIT, before, e);
    BarredRun(Next(s, e), after, id);
    RunOfConcat(INIT, before + [e], after);
  }

  lemma {:induction false} RunOfConcat(s: State, a: seq<Event>, b: seq<Event>)
    requires Sound(s)
    ensures RunOf(s, a + b) == RunOf(RunOf(s, a), b)
    decreases |b|
  {
    if b == [] {
      assert a + b == a;
    } else {
      var b', e := b[..|b| - 1], b[|b| - 1];
      assert a + b == a + b' + [e] && b == b' + [e];
      RunOfConcat(s, a, b');
      RunOfMore(s, a + b', e);
      RunOfMore(RunOf(s, a), b', e);
    }
  }

  // ---------------------------------------------------------------- forgotten retries

  /** Nothing is in flight and nothing will be tried again. */
  predicate Dropped(s: State, id: Id)
    requires id in s.ks
  {
    s.ks[id].rpc.Idle? && id !in s.retry
  }

  /** After a retry pass a keepalive that waited for it has been dropped if and only if it was idle and
      its check had failed, or no request could be created, or its request failed to start: asking for
      another retry from within the pass is in vain. */
  lemma DroppedByRetry(s: State, restarts: Id -> bool, id: Id)
    requires Sound(s) && s.lease != 0 && id in s.retry
    ensures var k := s.ks[id];
      Dropped(Retried(s, restarts), id) <==>
        k.rpc.Idle? && ((k.check.has && k.check.run && !k.check.passed) || !Can(s) || !restarts(id))
  {
  }

  /** Of those, the ones that asked for another retry in vain. */
  lemma AskedInVain(s: State, restarts: Id -> bool, id: Id)
    requires Sound(s) && s.lease != 0 && id in s.retry
    ensures var k := s.ks[id];
      AsksAgain(k, s.lease, Can(s), restarts(id)) && Dropped(Retried(s, restarts), id) <==>
        k.rpc.Idle? && (k.check.has && k.check.run ==> k.check.passed) && (!Can(s) || !restarts(id))
  {
  }

  /** A dropped keepalive stays as it is while only retry passes and renewals of the same lease happen. */
  lemma DroppedStays(s: State, e: Event, id: Id)
    requires Sound(s) && id in s.ks && Dropped(s, id)
    requires e.Ticked? || (e.Lease? && e.v == s.lease && !e.grant)
    ensures id in Next(s, e).ks && Next(s, e).ks[id] == s.ks[id] && Dropped(Next(s, e), id)
  {
  }

  lemma RunOfMore(s: State, events: seq<Event>, e: Event)
    requires Sound(s)
    ensures RunOf(s, events + [e]) == Next(RunOf(s, events), e)
    ensures RunOf(s, []) == s
  {
    assert (events + [e])[..|events|] == events;
  }

  /** The first lease comes, and no request starts. */
  lemma FirstLeaseFails(s: State, never: Id -> bool)
    requires s == State(map[1 := NEW], [1], [], 0, false, false, true) && !never(1)
    ensures var t := Granted(s, 5, true, never, never);
      && t.actors == [1] && t.retry == [] && t.lease == 5 && Can(t) && 1 in t.ks
      && !t.ks[1].changed && t.ks[1].rpc.Idle? && t.ks[1].stored.None?
  {
    var t := s.(running := true, lease := 5);
    AskingMembers(t, [1], never);
    assert ActorsRenewed(t, never).ks[1] == Renewed(NEW, 5, true, false);
  }

  /** A run that ends with a registered keepalive that is unchanged, idle, queued nowhere and never
      written: its requests fail to start when the first lease is granted. */
  lemma ForgottenRun() returns (events: seq<Event>)
    ensures var s := RunOf(INIT, events);
      && 1 in s.actors && 1 in s.ks && s.lease != 0 && Can(s)
      && !s.ks[1].changed && Dropped(s, 1) && s.ks[1].stored.None? && !UpToDate(s.ks[1], s.lease)
  {
    hide Granted, Activated;
    var never := (x: Id) => false;
    var e1, e2, e3, e4 := Connected(true), Create(1), Register(1, true), Lease(5, true, never, never);
    events := [e1, e2, e3, e4];
    RunOfMore(INIT, [], e1);
    RunOfMore(INIT, [e1], e2);
    RunOfMore(INIT, [e1, e2], e3);
    RunOfMore(INIT, [e1, e2, e3], e4);
    assert [] + [e1] == [e1] && [e1] + [e2] == [e1, e2] && [e1, e2] + [e3] == [e1, e2, e3] && [e1, e2, e3] + [e4] == events;
    FirstLeaseFails(RunOf(INIT, [e1, e2, e3]), never);
  }

  // ---------------------------------------------------------------- the cluster

  class Cluster {
    var keepalives: map<Id, Keepalive>
    var actors: seq<Id>
    var retry: seq<Id>
    var lease: int
    var running: bool
    var closing: bool
    var connected: bool

    ghost function View(): State
      reads this
    {
      State(keepalives, actors, retry, lease, running, closing, connected)
    }

    ghost predicate Valid()
      reads this
    {
      Sound(View())
    }

    constructor ()
      ensures View() == INIT
    {
      keepalives, actors, retry := map[], [], [];
      lease, running, closing, connected := 0, false, false, false;
    }

    method AddRetryKeepalive(id: Id)
      modifies `retry
      ensures View() == Queued(old(View()), id)
    {
      if closing || id in retry {
        return;
      }
      retry := retry + [id];
    }

    method Process(id: Id, started: bool)
      requires id in keepalives
      modifies `keepalives, `retry
      ensures View() == Activated(old(View()), id, started)
    {
      var k := keepalives[id];
      if !k.rpc.Idle? {
        assert keepalives[id := k] == keepalives;
        return;
      }
      if !k.check.has {
        k := k.(check := Check(false, true, true));
      }
      var needRetry := false;
      var can := connected && !closing;
      if !k.check.run {
        if !can {
          needRetry := true;
        } else {
          k := k.(rpc := Get);
        }
      } else if k.check.run && k.check.passed && k.changed {
        if !can || lease == 0 {
          needRetry := true;
        } else {
          k := k.(changed := false, rpc := Put(Written(k.value, lease)));
        }
      }
      if !k.rpc.Idle? && !started {
        needRetry := true;
        k := k.(rpc := Idle);
      }
      keepalives := keepalives[id := k];
      if needRetry {
        AddRetryKeepalive(id);
      }
    }

    method SetValue(id: Id, value: Value, started: bool)
      requires id in keepalives
      modifies `keepalives, `retry
      ensures View() == Valued(old(View()), id, value, started)
    {
      var k := keepalives[id];
      if k.value != value {
        keepalives := keepalives[id := Marked(k).(value := value)];
        if running && lease != 0 {
          Process(id, started);
        }
      }
    }

    /** The check request completes; good says that its answer could be read. */
    method OnGetDone(id: Id, success: bool, good: bool, passed: bool, started: bool)
      requires id in keepalives && keepalives[id].rpc.Get?
      modifies `keepalives, `retry
      ensures View() == Checked(old(View()), id, success, good, passed, started)
    {
      hide Activated;
      var k := keepalives[id].(rpc := Idle);
      if !success || !good {
        keepalives := keepalives[id := k];
        AddRetryKeepalive(id);
        return;
      }
      var verdict := true;
      if k.check.has {
        verdict := passed;
      }
      keepalives := keepalives[id := k.(check := Check(k.check.has, true, verdict))];
      Process(id, started);
    }

    /** The put completes. What is stored is what the request carried, not what the value is now. */
    method OnPutDone(id: Id, success: bool, started: bool)
      requires id in keepalives && keepalives[id].rpc.Put?
      modifies `keepalives, `retry
      ensures View() == PutAnswered(old(View()), id, success, started)
    {
      hide Activated;
      var k := keepalives[id];
      if !success {
        keepalives := keepalives[id := k.(rpc := Idle, changed := true)];
        AddRetryKeepalive(id);
        return;
      }
      keepalives := keepalives[id := k.(rpc := Idle, hasData := true, stored := Some(k.rpc.what))];
      Process(id, started);
    }

    // -------------------------------------------------------------- registration

    method AddKeepalive(id: Id, started: bool) returns (added: bool)
      requires id in keepalives
      modifies `keepalives, `retry, `actors
      ensures View() == Registered(old(View()), id, started)
      ensures added <==> !closing && id !in old(actors)
    {
      hide Activated;
      if closing || id in actors {
        return false;
      }
      actors := actors + [id];
      if running && lease != 0 {
        Process(id, started);
      }
      return true;
    }

    /** Whether it was registered or waiting for a retry, it is neither afterwards, and closed. */
    method RemoveKeepalive(id: Id) returns (found: bool)
      requires Valid() && id in keepalives
      modifies `keepalives, `retry, `actors
      ensures View() == Removed(old(View()), id)
      ensures found <==> id in old(actors) || id in old(retry)
    {
      hide Popped;
      var inActors, left := SwapAndPop(actors, id);
      var inRetry, rest := SwapAndPop(retry, id);
      actors, retry := left, rest;
      found := inActors || inRetry;
      if found {
        keepalives := keepalives[id := Closed(keepalives[id], keepalives[id].hasData)];
      }
    }

    // -------------------------------------------------------------- leases

    /** Marks a keepalive as changed and processes it. */
    method MarkAndActivate(id: Id, started: bool)
      requires id in keepalives
      modifies `keepalives, `retry
      ensures var s, k := old(View()), old(keepalives)[id];
        var t := Set(s, id, Renewed(k, s.lease, Can(s), started));
        View() == if AsksAgain(k, s.lease, Can(s), started) then Queued(t, id) else t
    {
      hide Processed;
      ghost var was := keepalives;
      keepalives := keepalives[id := Marked(keepalives[id])];
      Process(id, started);
      ghost var k := Renewed(was[id], lease, connected && !closing, started);
      assert was[id := Marked(was[id])][id := k] == was[id := k];
    }

    /** Everything waiting for a retry is processed once; the list is then emptied, so a retry asked
        for during the pass is forgotten. */
    method RetryPendingActions(starts: Id -> bool)
      requires Valid()
      modifies `keepalives, `retry
      ensures View() == Retried(old(View()), starts)
    {
      hide Renewed, AsksAgain, Renewals;
      if lease == 0 {
        return;
      }
      ghost var was := View();
      RenewalsStart(was, starts);
      var i := 0;
      while i < |retry|
        invariant 0 <= i <= |was.retry| && View() == was.(ks := Renewals(was, was.retry[..i], starts))
      {
        var id := retry[i];
        assert was.retry[..i + 1] == was.retry[..i] + [id];
        RenewalsStep(was, was.retry[..i], id, starts);
        MarkAndActivate(id, starts(id));
        i := i + 1;
      }
      assert was.retry[..|retry|] == was.retry;
      retry := [];
    }

    /** Every registered keepalive puts its value again under the new lease. */
    method RenewActors(starts: Id -> bool)
      requires Valid() && retry == []
      modifies `keepalives, `retry
      ensures View() == ActorsRenewed(old(View()), starts)
    {
      hide Renewed, AsksAgain, Renewals, Asking;
      ghost var was := View();
      RenewalsStart(was, starts);
      var i := 0;
      while i < |actors|
        invariant 0 <= i <= |was.actors|
        invariant View() == was.(ks := Renewals(was, was.actors[..i], starts), retry := Asking(was, was.actors[..i], starts))
      {
        var id := actors[i];
        assert was.actors[..i + 1] == was.actors[..i] + [id];
        RenewalsStep(was, was.actors[..i], id, starts);
        AskingStep(was, was.actors[..i], id, starts);
        MarkAndActivate(id, starts(id));
        i := i + 1;
      }
      assert was.actors[..|actors|] == was.actors;
    }

    method SetLease(v: int, force: bool, starts: Id -> bool, restarts: Id -> bool)
      requires Valid() && (v != 0 ==> !closing)
      modifies `keepalives, `retry, `lease
      ensures View() == Leased(old(View()), v, force, starts, restarts)
    {
      hide Retried, ActorsRenewed;
      var was := lease;
      lease := v;
      if was == v && !force && v != 0 {
        RetryPendingActions(restarts);
        return;
      }
      if v != 0 {
        retry := [];
        ghost var mid := View();
        RenewActors(starts);
        ActorsRenewedSame(old(View()).(lease := v), mid, starts);
        ActorsRenewedIsSound(mid, starts);
        RetryPendingActions(restarts);
      }
    }

    /** A lease was granted or kept alive. After closing the request is cancelled. */
    method OnLease(v: int, grant: bool, starts: Id -> bool, restarts: Id -> bool)
      requires Valid()
      modifies `keepalives, `retry, `lease, `running
      ensures View() == Granted(old(View()), v, grant, starts, restarts)
    {
      hide Leased;
      if v == 0 || closing {
        return;
      }
      if !running {
        running := true;
      }
      SetLease(v, grant, starts, restarts);
    }

    method Close()
      requires Valid()
      modifies this
      ensures View() == Shutdown(old(View()))
    {
      ghost var was := View();
      closing, running := true, false;
      lease := 0;
      var i := 0;
      while i < |actors|
        invariant 0 <= i <= |actors|
        invariant View() == State(keepalives, was.actors, was.retry, 0, false, true, was.connected)
        invariant keepalives.Keys == was.ks.Keys
        invariant forall id :: id in was.ks ==>
          keepalives[id] == (if id in was.actors[..i] then Closed(was.ks[id], false) else was.ks[id])
      {
        var id := actors[i];
        assert id !in actors[..i];
        assert actors[..i + 1] == actors[..i] + [id];
        keepalives := keepalives[id := Closed(keepalives[id], false)];
        i := i + 1;
      }
      assert actors[..|actors|] == actors;
      actors, retry := [], [];
      assert keepalives == Shutdown(was).ks;
    }

    // -------------------------------------------------------------- runs

    /** Any event does what the machine says. */
    method Step(e: Event)
      requires Valid()
      modifies this
      ensures Valid() && View() == Next(old(View()), e)
    {
      hide Registered, Removed, Valued, Checked, PutAnswered, Granted, Retried, Shutdown;
      NextIsSound(View(), e);
      match e
      case Create(id) => if id !in keepalives { keepalives := keepalives[id := NEW]; }
      case Register(id, started) => if id in keepalives { var _ := AddKeepalive(id, started); }
      case Unregister(id) => if id in keepalives { var _ := RemoveKeepalive(id); }
      case NewValue(id, value, started) => if id in keepalives { SetValue(id, value, started); }
      case Checker(id, has) =>
        if id in keepalives {
          keepalives := keepalives[id := keepalives[id].(check := keepalives[id].check.(has := has))];
        }
      case GetDone(id, success, good, passed, started) =>
        if id in keepalives && keepalives[id].rpc.Get? { OnGetDone(id, success, good, passed, started); }
      case PutDone(id, success, started) =>
        if id in keepalives && keepalives[id].rpc.Put? { OnPutDone(id, success, started); }
      case Lease(v, grant, starts, restarts) => OnLease(v, grant, starts, restarts);
      case LeaseLost => SetLease(0, false, _ => true, _ => true);
      case Ticked(restarts) => if connected && !closing { RetryPendingActions(restarts); }
      case Connected(on) => connected := on;
      case Opened => closing := false;
      case Shut => Close();
    }

    /** A run of the cluster is a run of the machine. */
    method Run(events: seq<Event>)
      requires Valid()
      modifies this
      ensures Valid() && View() == RunOf(old(View()), events)
    {
      for i := 0 to |events|
        invariant Valid() && View() == RunOf(old(View()), events[..i])
      {
        assert events[..i + 1] == events[..i] + [events[i]];
        RunOfMore(old(View()), events[..i], events[i]);
        Step(events[i]);
      }
      assert events[..|events|] == events;
    }
  }

  lemma RenewalsStart(s: State, starts: Id -> bool)
    ensures Renewals(s, s.retry[..0], starts) == s.ks == Renewals(s, s.actors[..0], starts)
    ensures Known(s.actors, s.ks) ==> Asking(s, s.actors[..0], starts) == []
  {
  }

  lemma RenewalsStep(s: State, ids: seq<Id>, id: Id, starts: Id -> bool)
    requires id in s.ks && id !in ids
    ensures var now := Renewals(s, ids, starts);
      && id in now && now[id] == s.ks[id]
      && Renewals(s, ids + [id], starts) == now[id := Renewed(s.ks[id], s.lease, Can(s), starts(id))]
  {
    hide Renewed;
  }

  lemma AskingStep(s: State, ids: seq<Id>, id: Id, starts: Id -> bool)
    requires Known(ids, s.ks) && id in s.ks && NoRepeat(ids) && id !in ids
    ensures Asking(s, ids + [id], starts) ==
      Asking(s, ids, starts) + (if AsksAgain(s.ks[id], s.lease, Can(s), starts(id)) && !s.closing then [id] else [])
    ensures id !in Asking(s, ids, starts)
  {
    hide AsksAgain;
    assert (ids + [id])[..|ids|] == ids;
    AskingMembers(s, ids, starts);
  }

  lemma ActorsRenewedSame(s: State, t: State, starts: Id -> bool)
    requires Sound(t) && s == t.(retry := s.retry)
    ensures ActorsRenewed(s, starts) == ActorsRenewed(t, starts)
  {
    hide Renewed, AsksAgain;
    AskingSame(s, t, s.actors, starts);
    assert Renewals(s, s.actors, starts) == Renewals(t, t.actors, starts);
  }

  lemma ActorsRenewedIsSound(s: State, starts: Id -> bool)
    requires Sound(s)
    ensures Sound(ActorsRenewed(s, starts))
  {
    hide Renewed, AsksAgain;
    AskingMembers(s, s.actors, starts);
  }

  /** Who asks for a retry does not depend on who is waiting for one. */
  lemma {:induction false} AskingSame(s: State, t: State, ids: seq<Id>, starts: Id -> bool)
    requires Known(ids, s.ks) && s.ks == t.ks && s.lease == t.lease && s.closing == t.closing && s.connected == t.connected
    ensures Asking(s, ids, starts) == Asking(t, ids, starts)
    decreases |ids|
  {
    if ids != [] {
      AskingSame(s, t, ids[..|ids| - 1], starts);
    }
  }

  /** Removes one occurrence by swapping the last element into its place. */
  method SwapAndPop(s: seq<Id>, id: Id) returns (found: bool, r: seq<Id>)
    requires NoRepeat(s)
    ensures found <==> id in s
    ensures r == Popped(s, id)
  {
    var i := 0;
    while i < |s|
      invariant 0 <= i <= |s| && id !in s[..i]
    {
      if s[i] == id {
        var last := |s| - 1;
        PoppedAt(s, i);
        return true, s[i := s[last]][..last];
      }
      i := i + 1;
    }
    return false, s;
  }

  lemma {:induction false} ReplacedAt(s: seq<Id>, i: nat, sub: Id)
    requires i < |s| && NoRepeat(s)
    ensures Replaced(s, s[i], sub) == s[i := sub]
    decreases |s|
  {
    if i == 0 {
      ReplacedNot(s[1..], s[0], sub);
    } else {
      ReplacedAt(s[1..], i - 1, sub);
    }
  }

  lemma {:induction false} ReplacedNot(s: seq<Id>, id: Id, sub: Id)
    requires id !in s
    ensures Replaced(s, id, sub) == s
    decreases |s|
  {
    if s != [] {
      ReplacedNot(s[1..], id, sub);
    }
  }

  lemma PoppedAt(s: seq<Id>, i: nat)
    requires i < |s| && NoRepeat(s)
    ensures Popped(s, s[i]) == s[i := s[|s| - 1]][..|s| - 1]
  {
    var last := |s| - 1;
    if i < last {
      ReplacedAt(s[..last], i, s[last]);
      assert s[i := s[last]][..last] == s[..last][i := s[last]];
    }
  }
}
