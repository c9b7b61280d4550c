/** The message path of one application: the pending queue of every endpoint, the ordered index of
    endpoint wakers and the loopback queue of the application itself. */
module MessagePath {
  import opened MessageLog

  datatype Code = Success | NoConnection | BufferLimit | Timeout | Failed

  /** An endpoint's pending messages. loop says that the endpoint is the application itself, reached
      by the loopback connector. */
  datatype Box = Box(queue: seq<Message>, bytes: nat, loop: bool, log: Log)

  /** ready says that some handle is ready and has a connector, bound that there is some handle; gc
      is when an endpoint without handles may be dropped. */
  datatype Link = Link(ready: bool, bound: bool, gc: Time)

  type Boxes = map<EndpointId, Box>
  type Nearest = map<EndpointId, Time>
  type Wakers = set<(Time, EndpointId)>

  /** What a connector other than loopback answers to a message. */
  type Answers = Message -> Code

  /** Limits of the configuration, 0 for none. */
  datatype Limits = Limits(count: nat, bytes: nat)

  predicate Within(q: seq<Message>, bytes: nat, lim: Limits) {
    (lim.count > 0 ==> |q| <= lim.count) && (lim.bytes > 0 ==> bytes <= lim.bytes)
  }

  predicate HasRoom(q: seq<Message>, bytes: nat, size: nat, lim: Limits) {
    (lim.count > 0 ==> |q| + 1 <= lim.count) && (lim.bytes > 0 ==> bytes + size <= lim.bytes)
  }

  function RoomCode(q: seq<Message>, bytes: nat, size: nat, lim: Limits): Code {
    if HasRoom(q, bytes, size, lim) then Success else BufferLimit
  }

  // ---------------------------------------------------------------- invariants

  /** Nothing is lost, doubled or overtaken, and the byte counter is right and within its limit. */
  ghost predicate BoxOk(e: EndpointId, b: Box, lim: Limits) {
    && Accounted(e, b.log, b.queue)
    && b.bytes == Sum(b.queue)
    && Within(b.queue, b.bytes, lim)
    && (forall i :: 0 <= i < |b.queue| ==> b.queue[i].expiry > 0 && b.queue[i].ep == e)
  }

  ghost predicate BoxesOk(bs: Boxes, lim: Limits) {
    forall e :: e in bs ==> BoxOk(e, bs[e], lim)
  }

  /** The index has one entry, at the right time, for each endpoint that has a waker, and none for
      an endpoint that has not. Entries of endpoints that no longer exist may linger. */
  ghost predicate WakersOk(near: Nearest, ws: Wakers) {
    && (forall e {:trigger near[e]} :: e in near && near[e] != 0 ==> (near[e], e) in ws)
    && (forall t, e {:trigger (t, e) in ws} :: (t, e) in ws && e in near ==> t != 0 && near[e] == t)
  }

  ghost predicate OnTime(b: Box, t: Time) {
    b.queue != [] ==> 0 < t <= b.queue[0].expiry
  }

  /** Whoever has messages waiting, but for the endpoint in skip, is woken no later than the first
      of them expires. */
  ghost predicate Timely(bs: Boxes, near: Nearest, skip: set<EndpointId>) {
    forall e {:trigger bs[e]} :: e in bs && e !in skip ==> e in near && OnTime(bs[e], near[e])
  }

  /** What loopback took over is delivered or queued, in order. */
  ghost predicate LoopOk(accepted: seq<Message>, delivered: seq<Message>, q: seq<Message>, bytes: nat, lim: Limits) {
    accepted == delivered + q && bytes == Sum(q) && Within(q, bytes, lim)
  }

  /** What loopback took over is what the loopback endpoints handed on. */
  ghost predicate SharesOk(bs: Boxes, accepted: seq<Message>) {
    forall e {:trigger bs[e]} :: e in bs ==> From(accepted, e) == if bs[e].loop then bs[e].log.sent else []
  }

  /** Ids are given out in order, and never again. */
  ghost predicate IdsBelow(bs: Boxes, ws: Wakers, accepted: seq<Message>, n: EndpointId) {
    && (forall e :: e in bs ==> e < n)
    && (forall t, e {:trigger (t, e) in ws} :: (t, e) in ws ==> e < n)
    && (forall e {:trigger From(accepted, e)} :: n <= e ==> From(accepted, e) == [])
  }

  /** Every endpoint ever made is live or gone, and what those that are gone were left with is accounted
      for as it is for the live ones. */
  ghost predicate GoneOk(gone: Boxes, live: set<EndpointId>, accepted: seq<Message>, n: EndpointId, lim: Limits) {
    && gone.Keys !! live
    && (forall e :: e in gone ==> e < n)
    && (forall e: EndpointId :: e < n ==> e in gone.Keys + live)
    && BoxesOk(gone, lim)
    && SharesOk(gone, accepted)
  }

  // ---------------------------------------------------------------- steps on one endpoint

  function Woken(near: Time, t: Time): Time {
    if t < near || near == 0 then t else near
  }

  function Waiting(b: Box, m: Message): Box {
    b.(queue := b.queue + [m], bytes := b.bytes + m.size, log := b.log.(pushed := b.log.pushed + [m]))
  }

  function Refused(b: Box, m: Message): Box {
    b.(log := b.log.(pushed := b.log.pushed + [m], failed := b.log.failed + {m.id}))
  }

  function Direct(b: Box, m: Message): Box {
    b.(log := b.log.(pushed := b.log.pushed + [m], sent := b.log.sent + [m]))
  }

  /** Byte counters never go below zero. */
  function Minus(a: nat, b: nat): nat {
    if a >= b then a - b else 0
  }

  /** The front of the queue leaves, handed on or reported failed. */
  function Popped(b: Box, ok: bool): Box
    requires b.queue != []
  {
    var m := b.queue[0];
    b.(queue := b.queue[1..],
       bytes := Minus(b.bytes, m.size),
       log := if ok then b.log.(sent := b.log.sent + [m]) else b.log.(failed := b.log.failed + {m.id}))
  }

  /** The first n messages have been offered, one after the other, and left as answered. */
  function Offered(b: Box, answers: Answers, n: nat): (r: Box)
    requires n <= |b.queue|
    ensures r.queue == b.queue[n..]
  {
    if n == 0 then b
    else
      var r := Offered(b, answers, n - 1);
      Popped(r, answers(r.queue[0]) == Success)
  }

  /** The loopback queue and its byte counter. */
  datatype Lane = Lane(queue: seq<Message>, bytes: nat)

  function Joined(lane: Lane, m: Message, ok: bool): Lane {
    if ok then Lane(lane.queue + [m], lane.bytes + m.size) else lane
  }

  /** The same for an endpoint that loopback serves: a message is taken over exactly if the loopback queue
      has room for it after the ones taken over before. */
  function Looped(b: Box, lane: Lane, lim: Limits, n: nat): (r: (Box, Lane))
    requires n <= |b.queue|
    ensures r.0.queue == b.queue[n..]
  {
    if n == 0 then (b, lane)
    else
      var (r, l) := Looped(b, lane, lim, n - 1);
      var ok := HasRoom(l.queue, l.bytes, r.queue[0].size, lim);
      (Popped(r, ok), Joined(l, r.queue[0], ok))
  }

  const TimedOut: Answers := m => Timeout

  /** What a retry does: a ready endpoint offers as many messages as it may; another one reports the
      leading expired ones, and stops at the first that is not. */
  ghost predicate Drained(was: Box, now: Box, lane: Lane, lane': Lane, lim: Limits, ready: bool, answers: Answers, max: int, tick: Time, n: nat) {
    && n <= |was.queue| && now.queue == was.queue[n..] && now.loop == was.loop && now.log.pushed == was.log.pushed
    && (ready && was.loop ==> (now, lane') == Looped(was, lane, lim, n))
    && (!(ready && was.loop) ==> lane' == lane)
    && (ready ==> n == if |was.queue| <= max then |was.queue| else max)
    && (ready && !was.loop ==> now == Offered(was, answers, n))
    && (!ready ==> now == Offered(was, TimedOut, n))
    && (!ready ==> now.queue == [] || now.queue[0].expiry > tick)
    && (!ready ==> forall i :: 0 <= i < n ==> was.queue[i].expiry <= tick)
  }

  /** A retry in progress, with so much of its budget left. */
  ghost predicate Draining(was: Box, now: Box, lane: Lane, lane': Lane, lim: Limits, ready: bool, answers: Answers, max: int, tick: Time, n: nat, budget: int) {
    && n <= |was.queue| && now.queue == was.queue[n..] && now.loop == was.loop && now.log.pushed == was.log.pushed
    && (ready && was.loop ==> (now, lane') == Looped(was, lane, lim, n))
    && (!(ready && was.loop) ==> lane' == lane)
    && budget == (if ready then max - n else max) && budget >= 0
    && (ready && !was.loop ==> now == Offered(was, answers, n))
    && (!ready ==> now == Offered(was, TimedOut, n))
    && (!ready ==> forall i :: 0 <= i < n ==> was.queue[i].expiry <= tick)
  }

  lemma DrainStep(was: Box, now: Box, lane: Lane, lane': Lane, lim: Limits, ready: bool, answers: Answers, max: int, tick: Time, n: nat, budget: int, ok: bool)
    requires Draining(was, now, lane, lane', lim, ready, answers, max, tick, n, budget) && now.queue != []
    requires ready ==> budget > 0
    requires ready ==>
      ok == if was.loop then HasRoom(lane'.queue, lane'.bytes, now.queue[0].size, lim) else answers(now.queue[0]) == Success
    requires !ready ==> !ok && now.queue[0].expiry <= tick
    ensures Draining(was, Popped(now, ok), lane, Joined(lane', now.queue[0], ready && was.loop && ok), lim, ready, answers, max, tick,
                     n + 1, if ready then budget - 1 else budget)
  {
    assert now.queue[0] == was.queue[n];
  }

  lemma DrainStarts(was: Box, lane: Lane, lim: Limits, ready: bool, answers: Answers, max: nat, tick: Time)
    ensures Draining(was, was, lane, lane, lim, ready, answers, max, tick, 0, max)
  {
  }

  lemma PoppedIs(b: Box, ok: bool)
    requires b.queue != []
    ensures |Popped(b, ok).queue| == |b.queue| - 1 && Popped(b, ok).loop == b.loop
  {
  }

  lemma DrainEnds(was: Box, now: Box, lane: Lane, lane': Lane, lim: Limits, ready: bool, answers: Answers, max: int, tick: Time, n: nat, budget: int)
    requires Draining(was, now, lane, lane', lim, ready, answers, max, tick, n, budget) && max > 0
    requires now.queue == [] || (!(budget > 0 && ready) && (now.queue[0].expiry > tick || budget <= 0))
    ensures Drained(was, now, lane, lane', lim, ready, answers, max, tick, n)
  {
  }

  /** What waking endpoint e does to the queues: one that is gone already changes nothing, another
      one is retried, and dropped when it has had no handle for long enough. */
  ghost predicate WokenUp(bs: Boxes, bs': Boxes, lane: Lane, lane': Lane, lim: Limits, links: map<EndpointId, Link>, e: EndpointId, answers: Answers, max: int, tick: Time, n: nat) {
    if e !in bs then bs' == bs && lane' == lane && n == 0
    else
      && e in links
      && (if !links[e].bound && tick >= links[e].gc then bs' == bs - {e}
          else e in bs' && bs' == bs[e := bs'[e]] && Drained(bs[e], bs'[e], lane, lane', lim, links[e].ready, answers, max, tick, n))
  }

  function Budget(max: int): nat {
    if max <= 0 then 0x7fff_ffff else max
  }

  predicate NewMessage(e: EndpointId, b: Box, m: Message) {
    m.ep == e && m.id == |b.log.pushed| && m.size > 0 && m.expiry > 0
  }

  lemma WaitingKeeps(e: EndpointId, b: Box, m: Message, lim: Limits)
    requires BoxOk(e, b, lim) && NewMessage(e, b, m) && HasRoom(b.queue, b.bytes, m.size, lim)
    ensures BoxOk(e, Waiting(b, m), lim)
  {
    AccountedQueue(e, b.log, b.queue, m);
    SumAppend(b.queue, m);
  }

  lemma RefusedKeeps(e: EndpointId, b: Box, m: Message, lim: Limits)
    requires BoxOk(e, b, lim) && NewMessage(e, b, m)
    ensures BoxOk(e, Refused(b, m), lim)
  {
    AccountedRefuse(e, b.log, b.queue, m);
  }

  lemma DirectKeeps(e: EndpointId, b: Box, m: Message, lim: Limits)
    requires BoxOk(e, b, lim) && NewMessage(e, b, m) && b.queue == []
    ensures BoxOk(e, Direct(b, m), lim)
  {
    AccountedDirect(e, b.log, m);
  }

  lemma PoppedKeeps(e: EndpointId, b: Box, ok: bool, lim: Limits)
    requires BoxOk(e, b, lim) && b.queue != []
    ensures BoxOk(e, Popped(b, ok), lim)
  {
    if ok {
      AccountedSend(e, b.log, b.queue);
    } else {
      AccountedFail(e, b.log, b.queue);
    }
    forall i | 0 <= i < |b.queue[1..]| ensures b.queue[1..][i].expiry > 0 && b.queue[1..][i].ep == e {
      assert b.queue[1..][i] == b.queue[i + 1];
    }
  }

  // ---------------------------------------------------------------- steps on the tables

  lemma BoxesAfter(bs: Boxes, e: EndpointId, b: Box, lim: Limits)
    requires BoxesOk(bs, lim) && BoxOk(e, b, lim)
    ensures BoxesOk(bs[e := b], lim)
  {
  }

  lemma SharesSame(bs: Boxes, accepted: seq<Message>, e: EndpointId, b: Box)
    requires SharesOk(bs, accepted) && e in bs && b.loop == bs[e].loop && (b.loop ==> b.log.sent == bs[e].log.sent)
    ensures SharesOk(bs[e := b], accepted)
  {
    assert bs[e].loop == b.loop;
  }

  lemma SharesAfter(bs: Boxes, accepted: seq<Message>, e: EndpointId, b: Box, m: Message)
    requires SharesOk(bs, accepted) && e in bs && m.ep == e && bs[e].loop && b.loop && b.log.sent == bs[e].log.sent + [m]
    ensures SharesOk(bs[e := b], accepted + [m])
  {
    forall x | x in bs ensures From(accepted + [m], x) == if bs[e := b][x].loop then bs[e := b][x].log.sent else [] {
      assert bs[x].loop || !bs[x].loop;
      FromAppend(accepted, m, x);
    }
  }

  lemma BoxAt(bs: Boxes, e: EndpointId, lim: Limits)
    requires BoxesOk(bs, lim) && e in bs
    ensures BoxOk(e, bs[e], lim)
  {
  }

  lemma FrontIs(e: EndpointId, b: Box, lim: Limits)
    requires BoxOk(e, b, lim) && b.queue != []
    ensures b.queue[0].expiry > 0 && b.queue[0].ep == e && b.queue[0].size > 0
  {
    var all := Kept(b.log.pushed, b.log.failed);
    assert (b.log.sent + b.queue)[|b.log.sent|] == b.queue[0];
    KeptMembers(e, b.log.pushed, b.log.failed, b.queue[0]);
  }

  lemma OnTimeAt(bs: Boxes, near: Nearest, e: EndpointId)
    requires Timely(bs, near, {}) && e in bs
    ensures e in near && OnTime(bs[e], near[e])
  {
  }

  lemma TimelyWoken(bs: Boxes, near: Nearest, e: EndpointId, t: Time, skip: set<EndpointId>)
    requires Timely(bs, near, skip) && e in near && t > 0 && (near[e] == 0 || t <= near[e])
    ensures Timely(bs, near[e := t], skip)
  {
  }

  lemma TimelyLess(bs: Boxes, near: Nearest, e: EndpointId)
    requires Timely(bs, near, {})
    ensures Timely(bs, near, {e})
  {
  }

  lemma TimelyBut(bs: Boxes, near: Nearest, e: EndpointId, t: Time)
    requires Timely(bs, near, {e})
    ensures Timely(bs, near[e := t], {e})
  {
  }

  /** Only the endpoint in question was possibly late, and it is not. */
  lemma TimelyAgain(bs: Boxes, near: Nearest, e: EndpointId)
    requires Timely(bs, near, {e}) && e in near && (e in bs ==> OnTime(bs[e], near[e]))
    ensures Timely(bs, near, {})
  {
  }

  lemma TimelyBox(bs: Boxes, near: Nearest, e: EndpointId, b: Box, skip: set<EndpointId>)
    requires Timely(bs, near, skip) && e in near && (e in skip || OnTime(b, near[e]))
    ensures Timely(bs[e := b], near, skip)
  {
    forall x | x in bs[e := b] && x !in skip ensures x in near && OnTime(bs[e := b][x], near[x]) {
      if x != e {
        assert OnTime(bs[x], near[x]);
      }
    }
  }

  lemma {:induction false} NoneFrom(q: seq<Message>, n: EndpointId)
    requires forall i :: 0 <= i < |q| ==> q[i].ep < n
    ensures From(q, n) == []
    decreases |q|
  {
    if q != [] {
      NoneFrom(q[..|q| - 1], n);
    }
  }

  lemma IdsAfter(bs: Boxes, ws: Wakers, accepted: seq<Message>, n: EndpointId, m: Message)
    requires IdsBelow(bs, ws, accepted, n) && m.ep < n
    ensures IdsBelow(bs, ws, accepted + [m], n)
  {
    forall e | n <= e ensures From(accepted + [m], e) == [] {
      FromAppend(accepted, m, e);
      assert From(accepted, e) == [];
    }
  }

  lemma IdsChanged(bs: Boxes, bs': Boxes, ws: Wakers, accepted: seq<Message>, n: EndpointId)
    requires IdsBelow(bs, ws, accepted, n) && bs'.Keys <= bs.Keys
    ensures IdsBelow(bs', ws, accepted, n)
  {
    forall e | e in bs' ensures e < n {
      assert e in bs.Keys;
    }
  }

  lemma BelowAt(bs: Boxes, ws: Wakers, accepted: seq<Message>, n: EndpointId, e: EndpointId)
    requires IdsBelow(bs, ws, accepted, n) && e in bs
    ensures e < n
  {
  }

  lemma EmptyBox(e: EndpointId, b: Box, lim: Limits)
    requires BoxOk(e, b, lim) && b.queue == []
    ensures b.bytes == 0
  {
  }

  /** What loopback takes over from a live endpoint is none of those that are gone. */
  lemma GoneAfter(gone: Boxes, live: set<EndpointId>, accepted: seq<Message>, n: EndpointId, lim: Limits, m: Message)
    requires GoneOk(gone, live, accepted, n, lim) && m.ep in live
    ensures GoneOk(gone, live, accepted + [m], n, lim)
  {
    forall e | e in gone ensures From(accepted + [m], e) == if gone[e].loop then gone[e].log.sent else [] {
      assert e in gone.Keys && e != m.ep;
      assert gone[e].loop || !gone[e].loop;
      FromAppend(accepted, m, e);
    }
  }

  lemma GoneMore(gone: Boxes, live: set<EndpointId>, accepted: seq<Message>, n: EndpointId, lim: Limits, e: EndpointId, b: Box)
    requires GoneOk(gone, live, accepted, n, lim) && e in live && e < n && BoxOk(e, b, lim)
    requires From(accepted, e) == if b.loop then b.log.sent else []
    ensures GoneOk(gone[e := b], live - {e}, accepted, n, lim)
  {
    hide BoxOk;
    var gone', live' := gone[e := b], live - {e};
    forall x: EndpointId | x < n ensures x in gone'.Keys + live' {
      assert x in gone.Keys + live;
    }
    forall x | x in gone[e := b] ensures From(accepted, x) == if gone[e := b][x].loop then gone[e := b][x].log.sent else [] {
      if x != e {
        assert gone[x].loop || !gone[x].loop;
      }
    }
  }

  lemma GoneAdded(gone: Boxes, live: set<EndpointId>, accepted: seq<Message>, n: EndpointId, lim: Limits)
    requires GoneOk(gone, live, accepted, n, lim)
    ensures GoneOk(gone, live + {n}, accepted, n + 1, lim)
  {
    hide BoxesOk, SharesOk;
    assert n !in gone;
    forall x: EndpointId | x < n + 1 ensures x in gone.Keys + (live + {n}) {
      if x < n {
        assert x in gone.Keys + live;
      }
    }
  }

  lemma ShareAt(bs: Boxes, accepted: seq<Message>, e: EndpointId)
    requires SharesOk(bs, accepted) && e in bs
    ensures From(accepted, e) == if bs[e].loop then bs[e].log.sent else []
  {
    assert bs[e].loop || !bs[e].loop;
  }

  /** An endpoint leaves the tables; its entry in the index may stay. */
  lemma Dropped(bs: Boxes, near: Nearest, ws: Wakers, accepted: seq<Message>, n: EndpointId, lim: Limits, e: EndpointId, closing: bool)
    requires BoxesOk(bs, lim) && SharesOk(bs, accepted) && WakersOk(near, ws) && IdsBelow(bs, ws, accepted, n)
    requires !closing ==> Timely(bs, near, {e})
    ensures BoxesOk(bs - {e}, lim) && SharesOk(bs - {e}, accepted) && WakersOk(near - {e}, ws) && IdsBelow(bs - {e}, ws, accepted, n)
    ensures !closing ==> Timely(bs - {e}, near - {e}, {})
  {
    if !closing {
      forall x | x in bs - {e} ensures x in near - {e} && OnTime((bs - {e})[x], (near - {e})[x]) {
        assert OnTime(bs[x], near[x]);
      }
    }
    forall x | x in bs - {e} ensures From(accepted, x) == if (bs - {e})[x].loop then (bs - {e})[x].log.sent else [] {
      assert bs[x].loop || !bs[x].loop;
    }
  }

  /** An endpoint with a fresh id and nothing to send joins the tables. */
  lemma Added(bs: Boxes, near: Nearest, ws: Wakers, accepted: seq<Message>, n: EndpointId, lim: Limits, b: Box)
    requires BoxesOk(bs, lim) && SharesOk(bs, accepted) && WakersOk(near, ws) && IdsBelow(bs, ws, accepted, n)
    requires b.queue == [] && b.bytes == 0 && b.log == Log([], {}, [])
    ensures BoxesOk(bs[n := b], lim) && SharesOk(bs[n := b], accepted) && WakersOk(near[n := 0], ws)
    ensures IdsBelow(bs[n := b], ws, accepted, n + 1) && n !in bs
  {
    assert BoxOk(n, b, lim);
    assert From(accepted, n) == [];
    forall x | x in bs[n := b] ensures From(accepted, x) == if bs[n := b][x].loop then bs[n := b][x].log.sent else [] {
      if x != n {
        assert bs[x].loop || !bs[x].loop;
      }
    }
  }

  lemma AddedTimely(bs: Boxes, near: Nearest, n: EndpointId, b: Box)
    requires Timely(bs, near, {}) && b.queue == []
    ensures Timely(bs[n := b], near[n := 0], {})
  {
    var bs', near' := bs[n := b], near[n := 0];
    forall x | x in bs' ensures x in near' && OnTime(bs'[x], near'[x]) {
      if x != n {
        assert OnTime(bs[x], near[x]);
      }
    }
  }

  lemma {:induction false} EarliestExists(ws: Wakers) returns (first: (Time, EndpointId))
    requires ws != {}
    ensures first in ws && forall w :: w in ws ==> first.0 <= w.0
    decreases |ws|
  {
    first :| first in ws;
    if ws != {first} {
      var rest := EarliestExists(ws - {first});
      if rest.0 < first.0 {
        first := rest;
      }
    }
  }

  /** Taking an endpoint's entry out of the index fits clearing its waker. */
  lemma Unindexed(near: Nearest, ws: Wakers, t: Time, e: EndpointId)
    requires WakersOk(near, ws) && (t, e) in ws
    ensures e in near ==> near[e] == t && WakersOk(near[e := 0], ws - {(t, e)})
    ensures e !in near ==> WakersOk(near, ws - {(t, e)})
  {
  }

  lemma IdsFewerWakers(bs: Boxes, ws: Wakers, ws': Wakers, accepted: seq<Message>, n: EndpointId)
    requires IdsBelow(bs, ws, accepted, n) && ws' <= ws
    ensures IdsBelow(bs, ws', accepted, n)
  {
  }

  /** The front of the loopback queue is delivered. */
  lemma DeliveredKeeps(accepted: seq<Message>, delivered: seq<Message>, q: seq<Message>, bytes: nat, lim: Limits)
    requires LoopOk(accepted, delivered, q, bytes, lim) && q != []
    ensures LoopOk(accepted, delivered + [q[0]], q[1..], Minus(bytes, q[0].size), lim)
  {
    assert delivered + [q[0]] + q[1..] == delivered + q;
  }

  // ---------------------------------------------------------------- what the invariant means

  /** Every message pushed to the application itself is exactly one of delivered, in the loopback
      queue, in the endpoint's queue and reported failed, and those not reported failed appear, in
      this order of places, in the order in which they were pushed. */
  lemma NoneLostNoneDoubled(e: EndpointId, b: Box, bs: Boxes, accepted: seq<Message>, delivered: seq<Message>, q: seq<Message>, bytes: nat, lim: Limits, i: nat)
    requires e in bs && bs[e] == b && b.loop && i < |b.log.pushed|
    requires BoxOk(e, b, lim) && SharesOk(bs, accepted) && LoopOk(accepted, delivered, q, bytes, lim)
    ensures
      var m, there, onTheWay := b.log.pushed[i], From(delivered, e), From(q, e);
      && (i in b.log.failed <==> !(m in there || m in onTheWay || m in b.queue))
      && !(m in there && m in onTheWay) && !(m in there && m in b.queue) && !(m in onTheWay && m in b.queue)
      && there + onTheWay + b.queue == Kept(b.log.pushed, b.log.failed)
      && Ascending(there + onTheWay + b.queue)
  {
    var there, onTheWay := From(delivered, e), From(q, e);
    FromConcat(delivered, q, e);
    assert b.log.sent == there + onTheWay;
    ExactlyOne(e, b.log, b.queue, i);
    KeptInOrder(e, b.log.pushed, b.log.failed);
    AscendingApart(there, onTheWay, b.queue);
  }

  /** The same, and its counterpart for endpoints that other connectors serve, for every endpoint ever made:
      one that is gone was left with a queue of messages that were dropped unreported. */
  lemma EveryEndpointAccounted(bs: Boxes, gone: Boxes, accepted: seq<Message>, delivered: seq<Message>, q: seq<Message>, bytes: nat, n: EndpointId, lim: Limits, e: EndpointId, i: nat)
    requires BoxesOk(bs, lim) && SharesOk(bs, accepted) && LoopOk(accepted, delivered, q, bytes, lim)
    requires GoneOk(gone, bs.Keys, accepted, n, lim) && e < n
    requires i < |(if e in bs then bs[e] else if e in gone then gone[e] else Box([], 0, false, Log([], {}, []))).log.pushed|
    ensures e in bs || e in gone
    ensures
      var b := if e in bs then bs[e] else gone[e];
      var m, there, onTheWay := b.log.pushed[i], From(delivered, e), From(q, e);
      && (i in b.log.failed <==> !(m in b.log.sent || m in b.queue))
      && !(m in b.log.sent && m in b.queue)
      && (b.loop ==> b.log.sent == there + onTheWay && !(m in there && m in onTheWay))
  {
    hide LoopOk, BoxOk;
    assert e in gone.Keys + bs.Keys;
    var all := if e in bs then bs else gone;
    BoxAt(all, e, lim);
    BoxIsAccounted(e, all[e], lim);
    ExactlyOne(e, all[e].log, all[e].queue, i);
    if all[e].loop {
      ShareAt(all, accepted, e);
      NoneLostNoneDoubled(e, all[e], all, accepted, delivered, q, bytes, lim, i);
      LoopIsBoth(accepted, delivered, q, bytes, lim, e);
    }
  }

  lemma BoxIsAccounted(e: EndpointId, b: Box, lim: Limits)
    requires BoxOk(e, b, lim)
    ensures Accounted(e, b.log, b.queue)
  {
  }

  lemma LoopIsBoth(accepted: seq<Message>, delivered: seq<Message>, q: seq<Message>, bytes: nat, lim: Limits, e: EndpointId)
    requires LoopOk(accepted, delivered, q, bytes, lim)
    ensures From(accepted, e) == From(delivered, e) + From(q, e)
  {
    FromConcat(delivered, q, e);
  }

  lemma AscendingApart(a: seq<Message>, b: seq<Message>, c: seq<Message>)
    requires Ascending(a + b + c)
    ensures forall m :: m in a ==> m !in b && m !in c
    ensures forall m :: m in b ==> m !in c
  {
    var all := a + b + c;
    forall j, k | 0 <= j < |a| && 0 <= k < |b| ensures a[j] != b[k] {
      assert all[j] == a[j] && all[|a| + k] == b[k];
    }
    forall j, k | 0 <= j < |a| && 0 <= k < |c| ensures a[j] != c[k] {
      assert all[j] == a[j] && all[|a| + |b| + k] == c[k];
    }
    forall j, k | 0 <= j < |b| && 0 <= k < |c| ensures b[j] != c[k] {
      assert all[|a| + j] == b[j] && all[|a| + |b| + k] == c[k];
    }
  }

  // ---------------------------------------------------------------- history

  /** What has been pushed, reported failed or handed on stays so. */
  predicate LogGrows(a: Log, b: Log) {
    a.pushed <= b.pushed && a.failed <= b.failed && a.sent <= b.sent
  }

  /** No endpoint is forgotten: it stays live or becomes one of those that are gone, which stay as they are, and
      its history is never rewritten. */
  ghost predicate Grows(bs: Boxes, gone: Boxes, bs': Boxes, gone': Boxes) {
    && (forall e :: e in gone ==> e in gone' && gone'[e] == gone[e])
    && (forall e :: e in bs ==> e in bs' || e in gone')
    && (forall e :: e in bs && e in bs' ==> LogGrows(bs[e].log, bs'[e].log))
    && (forall e :: e in bs && e !in bs' ==> LogGrows(bs[e].log, gone'[e].log))
    && (forall e :: e in gone && e !in bs ==> e !in bs')
  }

  lemma GrowsTwice(bs: Boxes, gone: Boxes, bs1: Boxes, gone1: Boxes, bs2: Boxes, gone2: Boxes)
    requires Grows(bs, gone, bs1, gone1) && Grows(bs1, gone1, bs2, gone2)
    requires bs.Keys !! gone.Keys && bs1.Keys !! gone1.Keys && bs2.Keys !! gone2.Keys
    ensures Grows(bs, gone, bs2, gone2)
  {
    forall e | e in bs
      ensures e in bs2 || e in gone2
      ensures LogGrows(bs[e].log, if e in bs2 then bs2[e].log else if e in gone2 then gone2[e].log else bs[e].log)
    {
      if e in bs1 {
        assert LogGrows(bs[e].log, bs1[e].log);
      } else {
        assert e in gone1 && gone2[e] == gone1[e];
      }
    }
  }

  lemma GrowsAt(bs: Boxes, gone: Boxes, e: EndpointId, b: Box)
    requires e in bs && LogGrows(bs[e].log, b.log) && bs.Keys !! gone.Keys
    ensures Grows(bs, gone, bs[e := b], gone)
  {
  }

  lemma GrowsNot(bs: Boxes, gone: Boxes)
    requires bs.Keys !! gone.Keys
    ensures Grows(bs, gone, bs, gone)
  {
  }

  /** What became of a message that was waiting: it is handed on if it was taken, else reported failed. */
  predicate Settled(m: Message, taken: bool, log: Log) {
    if taken then m in log.sent else m.id in log.failed
  }

  /** Each of the first n messages has been handed on if its connector took it, and reported failed if not. */
  lemma {:induction false} OfferedMeans(b: Box, answers: Answers, n: nat)
    requires n <= |b.queue|
    ensures var r := Offered(b, answers, n);
      && LogGrows(b.log, r.log) && r.log.pushed == b.log.pushed && r.loop == b.loop
      && (forall i :: 0 <= i < n ==> Settled(b.queue[i], answers(b.queue[i]) == Success, r.log))
    decreases n
  {
    if n > 0 {
      var r := Offered(b, answers, n - 1);
      var m, ok := b.queue[n - 1], answers(b.queue[n - 1]) == Success;
      OfferedMeans(b, answers, n - 1);
      assert r.queue[0] == m && m in b.queue;
      PoppedMeans(r, ok);
      forall i | 0 <= i < n ensures Settled(b.queue[i], answers(b.queue[i]) == Success, Popped(r, ok).log) {
      }
    }
  }

  /** Nothing else has been handed on or reported. */
  lemma {:induction false} OfferedOnly(b: Box, answers: Answers, n: nat, m: Message)
    requires n <= |b.queue|
    ensures var r := Offered(b, answers, n);
      && (m in r.log.sent ==> m in b.log.sent || (m in b.queue && answers(m) == Success))
      && (m.id in r.log.failed ==> m.id in b.log.failed || exists i :: 0 <= i < |b.queue| && b.queue[i].id == m.id && answers(b.queue[i]) != Success)
    decreases n
  {
    if n > 0 {
      var r := Offered(b, answers, n - 1);
      OfferedOnly(b, answers, n - 1, m);
      assert r.queue[0] == b.queue[n - 1] && b.queue[n - 1] in b.queue;
      PoppedMeans(r, answers(r.queue[0]) == Success);
    }
  }

  lemma PoppedMeans(b: Box, ok: bool)
    requires b.queue != []
    ensures var m, log := b.queue[0], Popped(b, ok).log;
      && log.pushed == b.log.pushed && Popped(b, ok).loop == b.loop
      && log.sent == (if ok then b.log.sent + [m] else b.log.sent) && log.failed == (if ok then b.log.failed else b.log.failed + {m.id})
      && LogGrows(b.log, log)
  {
  }

  lemma {:induction false} LoopedMeans(b: Box, lane: Lane, lim: Limits, n: nat)
    requires n <= |b.queue|
    ensures var r := Looped(b, lane, lim, n).0;
      && LogGrows(b.log, r.log) && r.log.pushed == b.log.pushed && r.loop == b.loop
      && (forall i :: 0 <= i < n ==> b.queue[i] in r.log.sent || b.queue[i].id in r.log.failed)
      && (n > 0 ==> if HasRoom(lane.queue, lane.bytes, b.queue[0].size, lim) then b.queue[0] in r.log.sent else b.queue[0].id in r.log.failed)
    decreases n
  {
    if n > 0 {
      LoopedMeans(b, lane, lim, n - 1);
    }
  }

  /** What is left of the history of an endpoint, live or gone. */
  ghost function LogOf(bs: Boxes, gone: Boxes, e: EndpointId): Log {
    if e in bs then bs[e].log else if e in gone then gone[e].log else Log([], {}, [])
  }

  /** The application as a value. */
  datatype Snapshot = Snapshot(boxes: Boxes, links: map<EndpointId, Link>, nearest: Nearest, wakers: Wakers, closing: bool, tick: Time,
                               loopQueue: seq<Message>, loopBytes: nat, delivered: seq<Message>, gone: Boxes, next: EndpointId)

  /** Endpoint e, whose waker was due, has been attended to. One without handles past its grace period is gone. A
      ready one has offered as many messages as it may to its connector, each leaving as that answered, and to
      loopback as its queue had room. One that is not ready has reported its leading expired messages. */
  ghost predicate AttendedTo(s: Snapshot, e: EndpointId, answers: Answers, max: int, lim: Limits, bs: Boxes, gone: Boxes) {
    e in s.boxes && e in s.links ==>
      var b, link, log := s.boxes[e], s.links[e], LogOf(bs, gone, e);
      && (!link.bound && s.tick >= link.gc ==> e in gone && e !in bs)
      && (link.ready && !b.loop ==>
            forall i :: 0 <= i < |b.queue| && i < (if max <= 0 then 0x7fff_ffff else max) ==> Settled(b.queue[i], answers(b.queue[i]) == Success, log))
      && (link.ready && b.loop ==>
            forall i :: 0 <= i < |b.queue| && i < (if max <= 0 then 0x7fff_ffff else max) ==> b.queue[i] in log.sent || b.queue[i].id in log.failed)
      && (link.ready && b.loop && b.queue != [] ==>
            Settled(b.queue[0], (lim.count > 0 ==> |s.loopQueue| + 1 <= lim.count) && (lim.bytes > 0 ==> s.loopBytes + b.queue[0].size <= lim.bytes), log))
      && (!link.ready ==>
            forall i :: 0 <= i < |b.queue| && (forall j :: 0 <= j <= i ==> b.queue[j].expiry <= s.tick) ==> b.queue[i].id in log.failed)
  }

  /** Only endpoints without handles past their grace period have been dropped, and the links of the others are as
      they were. */
  ghost predicate OnlyIdleDropped(s: Snapshot, bs: Boxes, links: map<EndpointId, Link>) {
    && bs.Keys == links.Keys
    && (forall e :: e in bs ==> e in s.boxes && e in s.links && links[e] == s.links[e])
    && (forall e :: e in s.boxes && e !in bs ==> e in s.links && !s.links[e].bound && s.tick >= s.links[e].gc)
  }

  lemma DropsTwice(s: Snapshot, mid: Snapshot, bs: Boxes, links: map<EndpointId, Link>)
    requires OnlyIdleDropped(s, mid.boxes, mid.links) && OnlyIdleDropped(mid, bs, links) && mid.tick == s.tick
    ensures OnlyIdleDropped(s, bs, links)
  {
  }

  lemma DropsNone(s: Snapshot, bs: Boxes)
    requires s.boxes.Keys == s.links.Keys == bs.Keys
    ensures OnlyIdleDropped(s, bs, s.links)
  {
  }

  lemma DropsIdle(s: Snapshot, e: EndpointId, bs: Boxes, links: map<EndpointId, Link>)
    requires s.boxes.Keys == s.links.Keys && e in s.boxes && !s.links[e].bound && s.tick >= s.links[e].gc
    requires bs.Keys == s.boxes.Keys - {e} && links == s.links - {e}
    ensures OnlyIdleDropped(s, bs, links)
  {
  }

  /** If a waker is due, the endpoint of an earliest one has been attended to. */
  ghost predicate Attended(s: Snapshot, answers: Answers, max: int, lim: Limits, bs: Boxes, gone: Boxes) {
    (exists w :: w in s.wakers && w.0 <= s.tick) ==>
      exists w :: w in s.wakers && (forall v :: v in s.wakers ==> w.0 <= v.0) && AttendedTo(s, w.1, answers, max, lim, bs, gone)
  }

  /** Whatever else happens, what was attended to stays so. */
  lemma AttendedStays(s: Snapshot, e: EndpointId, answers: Answers, max: int, lim: Limits, bs: Boxes, gone: Boxes, bs': Boxes, gone': Boxes)
    requires AttendedTo(s, e, answers, max, lim, bs, gone) && Grows(bs, gone, bs', gone')
    requires bs.Keys !! gone.Keys && bs'.Keys !! gone'.Keys && (e in s.boxes ==> e in bs || e in gone)
    ensures AttendedTo(s, e, answers, max, lim, bs', gone')
  {
    if e in s.boxes && e in s.links {
      assert LogGrows(LogOf(bs, gone, e), LogOf(bs', gone', e));
    }
  }

  /** What a retry has done, in terms of the messages. */
  lemma DrainedMeans(was: Box, now: Box, lane: Lane, lane': Lane, lim: Limits, ready: bool, answers: Answers, max: int, tick: Time, n: nat)
    requires Drained(was, now, lane, lane', lim, ready, answers, max, tick, n)
    ensures LogGrows(was.log, now.log)
    ensures ready && !was.loop ==> forall i :: 0 <= i < |was.queue| && i < max ==> Settled(was.queue[i], answers(was.queue[i]) == Success, now.log)
    ensures ready && was.loop ==> forall i :: 0 <= i < |was.queue| && i < max ==> was.queue[i] in now.log.sent || was.queue[i].id in now.log.failed
    ensures ready && was.loop && was.queue != [] && max > 0 ==> Settled(was.queue[0], HasRoom(lane.queue, lane.bytes, was.queue[0].size, lim), now.log)
    ensures !ready ==> forall i :: 0 <= i < |was.queue| && (forall j :: 0 <= j <= i ==> was.queue[j].expiry <= tick) ==> was.queue[i].id in now.log.failed
  {
    OfferedMeans(was, if ready then answers else TimedOut, n);
    LoopedMeans(was, lane, lim, n);
    if !ready && n < |was.queue| {
      assert now.queue[0] == was.queue[n];
    }
  }

  /** A message of size bytes has been pushed to e: sent at once when nothing waits and a handle is ready, and the
      connector takes it; kept waiting, when it is not offered or there is no connection, as far as there is
      room; else refused and reported. */
  ghost predicate PushedTo(s: Snapshot, e: EndpointId, size: nat, answers: Answers, lim: Limits, timeout: nat, t: Snapshot) {
    e in s.boxes && e in s.links && e in t.boxes &&
    var b, b' := s.boxes[e], t.boxes[e];
    var m := Message(e, |b.log.pushed|, size, s.tick + timeout);
    var offered := b.queue == [] && s.links[e].ready;
    var taken := offered &&
      if b.loop then (lim.count > 0 ==> |s.loopQueue| + 1 <= lim.count) && (lim.bytes > 0 ==> s.loopBytes + size <= lim.bytes)
      else answers(m) == Success;
    var kept := !(offered && (b.loop || answers(m) != NoConnection)) &&
      (lim.count > 0 ==> |b.queue| + 1 <= lim.count) && (lim.bytes > 0 ==> b.bytes + size <= lim.bytes);
    && t.boxes == s.boxes[e := b'] && b'.loop == b.loop
    && b'.log.pushed == b.log.pushed + [m]
    && b'.log.sent == b.log.sent + (if taken then [m] else [])
    && b'.log.failed == b.log.failed + (if taken || kept then {} else {m.id})
    && b'.queue == b.queue + (if kept then [m] else []) && b'.bytes == b.bytes + (if kept then size else 0)
    && t.loopQueue == s.loopQueue + (if taken && b.loop then [m] else [])
    && t.loopBytes == s.loopBytes + (if taken && b.loop then size else 0)
  }

  lemma PushedAtOnce(s: Snapshot, e: EndpointId, m: Message, answers: Answers, lim: Limits, timeout: nat, t: Snapshot, code: Code)
    requires e in s.boxes && e in s.links && m == Message(e, |s.boxes[e].log.pushed|, m.size, s.tick + timeout)
    requires s.boxes[e].queue == [] && s.links[e].ready && code != NoConnection
    requires code == if s.boxes[e].loop then RoomCode(s.loopQueue, s.loopBytes, m.size, lim) else answers(m)
    requires t.boxes == s.boxes[e := if code == Success then Direct(s.boxes[e], m) else Refused(s.boxes[e], m)]
    requires Lane(t.loopQueue, t.loopBytes) == Joined(Lane(s.loopQueue, s.loopBytes), m, s.boxes[e].loop && code == Success)
    requires s.boxes.Keys !! s.gone.Keys
    ensures PushedTo(s, e, m.size, answers, lim, timeout, t) && Grows(s.boxes, s.gone, t.boxes, s.gone)
  {
    var b' := t.boxes[e];
    GrowsAt(s.boxes, s.gone, e, b');
    assert b'.log.sent == s.boxes[e].log.sent + if code == Success then [m] else [];
    assert b'.log.failed == s.boxes[e].log.failed + if code == Success then {} else {m.id};
  }

  lemma PushedToQueue(s: Snapshot, e: EndpointId, m: Message, answers: Answers, lim: Limits, timeout: nat, t: Snapshot)
    requires e in s.boxes && e in s.links && m == Message(e, |s.boxes[e].log.pushed|, m.size, s.tick + timeout)
    requires s.boxes[e].queue == [] && s.links[e].ready ==> !s.boxes[e].loop && answers(m) == NoConnection
    requires t.boxes == s.boxes[e := if HasRoom(s.boxes[e].queue, s.boxes[e].bytes, m.size, lim) then Waiting(s.boxes[e], m) else Refused(s.boxes[e], m)]
    requires t.loopQueue == s.loopQueue && t.loopBytes == s.loopBytes
    requires s.boxes.Keys !! s.gone.Keys
    ensures PushedTo(s, e, m.size, answers, lim, timeout, t) && Grows(s.boxes, s.gone, t.boxes, s.gone)
  {
    var b' := t.boxes[e];
    GrowsAt(s.boxes, s.gone, e, b');
    assert b'.log.sent == s.boxes[e].log.sent + [];
    assert b'.queue == s.boxes[e].queue + b'.queue[|s.boxes[e].queue|..];
  }

  /** Endpoint e is gone, with its history: what was waiting was reported failed, all of it, if a handle was
      ready, and is dropped unreported if none was. Nobody else changes. */
  ghost predicate RemovedTo(s: Snapshot, e: EndpointId, t: Snapshot) {
    e in s.boxes && e in s.links && e in t.gone &&
    var was, left := s.boxes[e], t.gone[e];
    && t == s.(boxes := s.boxes - {e}, links := s.links - {e}, nearest := s.nearest - {e}, gone := s.gone[e := left])
    && left.log.pushed == was.log.pushed && left.log.sent == was.log.sent && was.log.failed <= left.log.failed
    && (!s.links[e].ready ==> left == was)
    && (s.links[e].ready ==> left.queue == [] && forall m :: m in was.queue ==> m.id in left.log.failed)
  }

  lemma RemovalIs(s: Snapshot, e: EndpointId, left: Box)
    requires e in s.boxes && e in s.links
    requires left.log.pushed == s.boxes[e].log.pushed && left.log.sent == s.boxes[e].log.sent && s.boxes[e].log.failed <= left.log.failed
    requires !s.links[e].ready ==> left == s.boxes[e]
    requires s.links[e].ready ==> left.queue == [] && forall m :: m in s.boxes[e].queue ==> m.id in left.log.failed
    ensures RemovedTo(s, e, s.(boxes := s.boxes - {e}, links := s.links - {e}, nearest := s.nearest - {e}, gone := s.gone[e := left]))
  {
  }

  lemma RemovedGrows(s: Snapshot, e: EndpointId, t: Snapshot)
    requires RemovedTo(s, e, t) && s.boxes.Keys !! s.gone.Keys
    ensures Grows(s.boxes, s.gone, t.boxes, t.gone) && t.boxes.Keys !! t.gone.Keys
  {
  }

  /** What recycling endpoint e does to the history. */
  ghost predicate Recycled(e: EndpointId, dropped: bool, log: Log, was: Boxes, now: Boxes) {
    if dropped then e in now && now == was[e := now[e]] && LogGrows(log, now[e].log) else now == was
  }

  lemma AttendedStill(s: Snapshot, answers: Answers, max: int, lim: Limits, bs: Boxes, gone: Boxes, bs': Boxes, gone': Boxes)
    requires Attended(s, answers, max, lim, bs, gone) && Grows(bs, gone, bs', gone') && Grows(s.boxes, s.gone, bs, gone)
    requires bs.Keys !! gone.Keys && bs'.Keys !! gone'.Keys
    ensures Attended(s, answers, max, lim, bs', gone')
  {
    hide AttendedTo;
    if exists w :: w in s.wakers && w.0 <= s.tick {
      var w :| w in s.wakers && (forall v :: v in s.wakers ==> w.0 <= v.0) && AttendedTo(s, w.1, answers, max, lim, bs, gone);
      AttendedStays(s, w.1, answers, max, lim, bs, gone, bs', gone');
    }
  }

  lemma GrowsByOne(bs: Boxes, gone: Boxes, e: EndpointId, b: Box)
    requires e !in bs && e !in gone && bs.Keys !! gone.Keys
    ensures Grows(bs, gone, bs[e := b], gone)
  {
  }

  lemma NobodyWoken(s: Snapshot, e: EndpointId, answers: Answers, max: int, lim: Limits)
    requires s.boxes.Keys == s.links.Keys && s.boxes.Keys !! s.gone.Keys
    ensures e !in s.boxes ==>
      && WokenUp(s.boxes, s.boxes, Lane(s.loopQueue, s.loopBytes), Lane(s.loopQueue, s.loopBytes), lim, s.links, e, answers, Budget(max), s.tick, 0)
      && AttendedTo(s, e, answers, max, lim, s.boxes, s.gone) && Grows(s.boxes, s.gone, s.boxes, s.gone) && OnlyIdleDropped(s, s.boxes, s.links)
  {
  }

  /** None of this depends on who else waits to be woken. */
  lemma SameButWakers(s: Snapshot, s': Snapshot, e: EndpointId, answers: Answers, max: int, lim: Limits)
    requires s' == s.(wakers := s'.wakers)
    ensures forall bs, gone :: AttendedTo(s', e, answers, max, lim, bs, gone) ==> AttendedTo(s, e, answers, max, lim, bs, gone)
    ensures forall bs, links :: OnlyIdleDropped(s', bs, links) ==> OnlyIdleDropped(s, bs, links)
  {
  }

  lemma WokenIsAttended(s: Snapshot, e: EndpointId, answers: Answers, max: int, lim: Limits, n: nat, now: Box, lane': Lane, bs: Boxes, gone: Boxes)
    requires e in s.boxes && e in s.links && s.boxes.Keys !! s.gone.Keys
    requires Drained(s.boxes[e], now, Lane(s.loopQueue, s.loopBytes), lane', lim, s.links[e].ready, answers, Budget(max), s.tick, n)
    requires var dropped := !s.links[e].bound && s.tick >= s.links[e].gc;
      bs == (if dropped then s.boxes - {e} else s.boxes[e := now]) && Recycled(e, dropped, now.log, s.gone, gone)
    ensures AttendedTo(s, e, answers, max, lim, bs, gone) && Grows(s.boxes, s.gone, bs, gone)
  {
    hide Drained;
    DrainedMeans(s.boxes[e], now, Lane(s.loopQueue, s.loopBytes), lane', lim, s.links[e].ready, answers, Budget(max), s.tick, n);
    assert LogGrows(now.log, LogOf(bs, gone, e).(pushed := LogOf(bs, gone, e).pushed));
  }

  // ---------------------------------------------------------------- the environment

  datatype Push = Push(e: EndpointId, size: nat)

  /** What the application pushes from within its callback for a delivered message. */
  type Replies = Message -> seq<Push>

  datatype Event =
    | Pushed(e: EndpointId, size: nat, answers: Answers)
    | Created(loop: bool, connected: bool, ready: bool, nextTick: Time)
    | Removed(e: EndpointId)
    | HandleBound(e: EndpointId, ready: bool, nextTick: Time)
    | HandleUnbound(e: EndpointId, isLast: bool, readyLeft: bool, nextTick: Time)
    | HandleReady(e: EndpointId, nextTick: Time)
    | HandleUnready(e: EndpointId, readyLeft: bool)
    | Ticked(now: Time)
    | Processed(rounds: nat, batches: nat, max: int, answers: Answers, replies: Replies)
    | Stopped

  /** What each event does. Wakers and the times at which endpoints are woken are left to the invariants and to
      what is said here about those that are woken. */
  ghost predicate Does(s: Snapshot, ev: Event, lim: Limits, timeout: nat, grace: nat, t: Snapshot) {
    match ev
    case Pushed(e, size, answers) => if e in s.boxes && size > 0 then PushedTo(s, e, size, answers, lim, timeout, t) else t == s
    case Created(loop, connected, ready, nextTick) =>
      if nextTick <= 0 || s.closing then t == s
      else
        && t.boxes == s.boxes[s.next := Box([], 0, loop, Log([], {}, []))] && t.next == s.next + 1 && t.gone == s.gone
        && t.links == s.links[s.next := Link(loop || (connected && ready), loop || connected, s.tick + grace)]
        && t.nearest == s.nearest[s.next := nextTick]
    case Removed(e) => if e in s.boxes then RemovedTo(s, e, t) else t == s
    case HandleBound(e, ready, nextTick) =>
      if e !in s.boxes || e !in s.links || nextTick <= 0 then t == s
      else
        && t.boxes == s.boxes && t.links == s.links[e := s.links[e].(bound := true, ready := s.links[e].ready || ready)]
        && (ready && !s.closing ==> e in t.nearest && 0 < t.nearest[e] <= nextTick)
    case HandleUnbound(e, isLast, readyLeft, nextTick) =>
      if e !in s.boxes || e !in s.links || nextTick <= 0 then t == s
      else
        && t.boxes == s.boxes
        && t.links == s.links[e := if isLast then Link(false, false, nextTick + grace) else s.links[e].(ready := readyLeft)]
        && (isLast && !s.closing ==> e in t.nearest && 0 < t.nearest[e] <= nextTick + grace)
    case HandleReady(e, nextTick) =>
      if e !in s.boxes || e !in s.links || nextTick <= 0 then t == s
      else
        && t.boxes == s.boxes && t.links == s.links[e := s.links[e].(ready := true)]
        && (!s.closing ==> e in t.nearest && 0 < t.nearest[e] <= nextTick)
    case HandleUnready(e, readyLeft) =>
      if e !in s.boxes || e !in s.links then t == s
      else t.boxes == s.boxes && t.links == s.links[e := s.links[e].(ready := readyLeft)] && t.nearest == s.nearest
    case Ticked(now) => t == if now > 0 then s.(tick := now) else s
    case Processed(_, _, max, answers, _) =>
      && OnlyIdleDropped(s, t.boxes, t.links) && Attended(s, answers, max, lim, t.boxes, t.gone)
      && (s.loopQueue != [] ==> s.delivered + [s.loopQueue[0]] <= t.delivered)
    case Stopped => t == s.(closing := true)
  }

  // ---------------------------------------------------------------- the application

  class App {
    var boxes: Boxes
    var links: map<EndpointId, Link>
    var nearest: Nearest
    var wakers: Wakers
    var closing: bool
    var tick: Time
    var loopQueue: seq<Message>
    var loopBytes: nat
    ghost var accepted: seq<Message>
    ghost var delivered: seq<Message>
    ghost var gone: Boxes
    var nextEndpoint: EndpointId
    const limits: Limits
    const messageTimeout: nat
    const gcTimeout: nat

    ghost function View(): Snapshot
      reads this
    {
      Snapshot(boxes, links, nearest, wakers, closing, tick, loopQueue, loopBytes, delivered, gone, nextEndpoint)
    }

    ghost predicate Keyed()
      reads this
    {
      && tick > 0
      && boxes.Keys == nearest.Keys == links.Keys
      && IdsBelow(boxes, wakers, accepted, nextEndpoint)
      && GoneOk(gone, boxes.Keys, accepted, nextEndpoint, limits)
    }

    ghost function TheLane(): Lane
      reads this
    {
      Lane(loopQueue, loopBytes)
    }

    ghost predicate Sound()
      reads this
    {
      && BoxesOk(boxes, limits)
      && LoopOk(accepted, delivered, loopQueue, loopBytes, limits)
      && SharesOk(boxes, accepted)
    }

    /** Valid, but for a possibly late waker of the endpoint in skip. */
    ghost predicate ValidBut(skip: set<EndpointId>)
      reads this
    {
      Keyed() && Sound() && WakersOk(nearest, wakers) && (!closing ==> Timely(boxes, nearest, skip))
    }

    ghost predicate Valid()
      reads this
    {
      ValidBut({})
    }

    lemma FreshId()
      requires Keyed()
      ensures nextEndpoint !in boxes && nextEndpoint !in gone
    {
    }

    lemma LiveOrGone()
      requires Keyed()
      ensures boxes.Keys !! gone.Keys
    {
    }

    constructor (limits: Limits, messageTimeout: nat, gcTimeout: nat, now: Time)
      requires now > 0
      ensures Valid() && boxes == map[] && gone == map[] && !closing
    {
      this.limits, this.messageTimeout, this.gcTimeout := limits, messageTimeout, gcTimeout;
      boxes, links, nearest, wakers, closing, tick := map[], map[], map[], {}, false, now;
      loopQueue, loopBytes, accepted, delivered, gone, nextEndpoint := [], 0, [], [], map[], 0;
    }

    /** Gives an endpoint a waker, or an earlier one in place of its present one. */
    method AddWaker(e: EndpointId, t: Time)
      requires Keyed() && e in nearest && t > 0 && WakersOk(nearest, wakers)
      modifies `nearest, `wakers
      ensures Keyed() && WakersOk(nearest, wakers)
      ensures nearest == if closing then old(nearest) else old(nearest)[e := Woken(old(nearest)[e], t)]
    {
      if t < nearest[e] || nearest[e] == 0 {
        if !closing {
          wakers := wakers + {(t, e)};
          if nearest[e] > t {
            wakers := wakers - {(nearest[e], e)};
          }
          nearest := nearest[e := t];
        }
      }
    }

    /** The same on a settled application: nobody becomes late. */
    method Wake(e: EndpointId, t: Time)
      requires Valid() && e in nearest && t > 0
      modifies `nearest, `wakers
      ensures Valid()
      ensures !closing ==> 0 < nearest[e] <= t
      ensures nearest == if closing then old(nearest) else old(nearest)[e := Woken(old(nearest)[e], t)]
    {
      hide BoxesOk, BoxOk, SharesOk, Timely, WakersOk, LoopOk, IdsBelow, GoneOk;
      AddWaker(e, t);
      if !closing {
        TimelyWoken(boxes, old(nearest), e, nearest[e], {});
      }
    }

    /** The same on an endpoint that may be late and is so no longer. */
    method WakeFor(e: EndpointId, t: Time)
      requires ValidBut({e}) && e in boxes && t > 0 && (closing || OnTime(boxes[e], Woken(nearest[e], t)))
      modifies `nearest, `wakers
      ensures Valid()
      ensures nearest == if closing then old(nearest) else old(nearest)[e := Woken(old(nearest)[e], t)]
    {
      hide BoxesOk, BoxOk, SharesOk, Timely, WakersOk, LoopOk, IdsBelow, GoneOk;
      AddWaker(e, t);
      if !closing {
        TimelyBut(boxes, old(nearest), e, nearest[e]);
        TimelyAgain(boxes, nearest, e);
      }
    }

    /** The loopback connector takes a message over if its queue has room. */
    method LoopbackSend(m: Message) returns (code: Code)
      requires LoopOk(accepted, delivered, loopQueue, loopBytes, limits) && m.size > 0
      modifies `loopQueue, `loopBytes, `accepted
      ensures LoopOk(accepted, delivered, loopQueue, loopBytes, limits)
      ensures code == RoomCode(old(loopQueue), old(loopBytes), m.size, limits)
      ensures code == Success <==>
        (limits.count > 0 ==> |old(loopQueue)| + 1 <= limits.count) && (limits.bytes > 0 ==> old(loopBytes) + m.size <= limits.bytes)
      ensures TheLane() == Joined(old(TheLane()), m, code == Success)
      ensures accepted == if code == Success then old(accepted) + [m] else old(accepted)
    {
      if limits.count > 0 && |loopQueue| + 1 > limits.count {
        return BufferLimit;
      }
      if limits.bytes > 0 && loopBytes + m.size > limits.bytes {
        return BufferLimit;
      }
      SumAppend(loopQueue, m);
      assert delivered + (loopQueue + [m]) == delivered + loopQueue + [m];
      loopQueue := loopQueue + [m];
      loopBytes := loopBytes + m.size;
      accepted := accepted + [m];
      return Success;
    }

    // -------------------------------------------------------------- pushing

    /** Hands a message to the connector of an endpoint: to loopback, or to another connector. */
    method HandOn(e: EndpointId, m: Message, answers: Answers) returns (code: Code)
      requires Keyed() && e in boxes && m.ep == e && m.size > 0 && LoopOk(accepted, delivered, loopQueue, loopBytes, limits)
      modifies `loopQueue, `loopBytes, `accepted
      ensures Keyed() && LoopOk(accepted, delivered, loopQueue, loopBytes, limits)
      ensures boxes[e].loop ==> code == RoomCode(old(loopQueue), old(loopBytes), m.size, limits)
      ensures !boxes[e].loop ==> code == answers(m)
      ensures accepted == if boxes[e].loop && code == Success then old(accepted) + [m] else old(accepted)
      ensures TheLane() == Joined(old(TheLane()), m, boxes[e].loop && code == Success)
    {
      hide LoopOk, IdsBelow, GoneOk;
      if boxes[e].loop {
        code := LoopbackSend(m);
        BelowAt(boxes, wakers, old(accepted), nextEndpoint, e);
        IdsAfter(boxes, wakers, old(accepted), nextEndpoint, m);
        GoneAfter(gone, boxes.Keys, old(accepted), nextEndpoint, limits, m);
      } else {
        code := answers(m);
      }
    }

    /** Sends at once when nothing is waiting and a handle is ready, else queues; refuses and reports
        what the connector rejects or the queue has no room for. */
    method PushForwardMessage(e: EndpointId, size: nat, answers: Answers) returns (code: Code)
      requires Valid() && e in boxes
      modifies `boxes, `nearest, `wakers, `loopQueue, `loopBytes, `accepted
      ensures Valid() && old(loopQueue) <= loopQueue && boxes.Keys == old(boxes.Keys)
      ensures size == 0 ==> code == Success && View() == old(View())
      ensures size > 0 ==> PushedTo(old(View()), e, size, answers, limits, messageTimeout, View())
      ensures Grows(old(boxes), gone, boxes, gone)
      ensures size > 0 ==>
        var m := Message(e, |old(boxes)[e].log.pushed|, size, tick + messageTimeout);
        var direct := old(boxes)[e].queue == [] && links[e].ready;
        code == if direct && old(boxes)[e].loop then RoomCode(old(loopQueue), old(loopBytes), size, limits)
          else if direct && answers(m) != NoConnection then answers(m)
          else RoomCode(old(boxes)[e].queue, old(boxes)[e].bytes, size, limits)
    {
      hide BoxesOk, BoxOk, SharesOk, Timely, WakersOk, LoopOk, IdsBelow, GoneOk, PushedTo, Grows;
      LiveOrGone();
      GrowsNot(boxes, gone);
      if size == 0 {
        return Success;
      }
      var m := Message(e, |boxes[e].log.pushed|, size, tick + messageTimeout);
      if boxes[e].queue == [] && links[e].ready {
        code := SendAtOnce(e, m, answers);
        if code != NoConnection {
          return;
        }
      }
      code := KeepWaiting(e, m, answers);
    }

    /** Offers a new message to the connector. */
    method SendAtOnce(e: EndpointId, m: Message, answers: Answers) returns (code: Code)
      requires Valid() && e in boxes && m == Message(e, |boxes[e].log.pushed|, m.size, tick + messageTimeout) && m.size > 0
      requires boxes[e].queue == [] && links[e].ready
      modifies `boxes, `loopQueue, `loopBytes, `accepted
      ensures Valid() && old(loopQueue) <= loopQueue && boxes.Keys == old(boxes.Keys)
      ensures code == if old(boxes)[e].loop then RoomCode(old(loopQueue), old(loopBytes), m.size, limits) else answers(m)
      ensures if code == NoConnection then View() == old(View())
        else PushedTo(old(View()), e, m.size, answers, limits, messageTimeout, View()) && Grows(old(boxes), gone, boxes, gone)
    {
      hide BoxesOk, BoxOk, SharesOk, Timely, WakersOk, LoopOk, IdsBelow, GoneOk, PushedTo, Grows, Direct, Refused;
      LiveOrGone();
      code := SendNow(e, m, answers);
      if code != NoConnection {
        PushedAtOnce(old(View()), e, m, answers, limits, messageTimeout, View(), code);
      }
    }

    /** Lets a new message wait that cannot be sent at once. */
    method KeepWaiting(e: EndpointId, m: Message, ghost answers: Answers) returns (code: Code)
      requires Valid() && e in boxes && m == Message(e, |boxes[e].log.pushed|, m.size, tick + messageTimeout) && m.size > 0
      requires boxes[e].queue == [] && links[e].ready ==> !boxes[e].loop && answers(m) == NoConnection
      modifies `boxes, `nearest, `wakers
      ensures Valid() && boxes.Keys == old(boxes.Keys)
      ensures code == RoomCode(old(boxes)[e].queue, old(boxes)[e].bytes, m.size, limits)
      ensures PushedTo(old(View()), e, m.size, answers, limits, messageTimeout, View()) && Grows(old(boxes), gone, boxes, gone)
    {
      hide BoxesOk, BoxOk, SharesOk, Timely, WakersOk, LoopOk, IdsBelow, GoneOk, PushedTo, Grows, Refused, Waiting;
      LiveOrGone();
      code := Enqueue(e, m);
      PushedToQueue(old(View()), e, m, answers, limits, messageTimeout, View());
    }

    method SendNow(e: EndpointId, m: Message, answers: Answers) returns (code: Code)
      requires Valid() && e in boxes && NewMessage(e, boxes[e], m) && boxes[e].queue == []
      modifies `boxes, `loopQueue, `loopBytes, `accepted
      ensures Valid() && old(loopQueue) <= loopQueue
      ensures code == Success ==> boxes == old(boxes)[e := Direct(old(boxes)[e], m)] && (boxes[e].loop || answers(m) == Success)
      ensures TheLane() == Joined(old(TheLane()), m, old(boxes)[e].loop && code == Success)
      ensures code == NoConnection ==> boxes == old(boxes) && TheLane() == old(TheLane())
      ensures code == if old(boxes)[e].loop then RoomCode(old(loopQueue), old(loopBytes), m.size, limits) else answers(m)
      ensures code != Success && code != NoConnection ==> boxes == old(boxes)[e := Refused(old(boxes)[e], m)]
    {
      hide BoxesOk, BoxOk, SharesOk, Timely, WakersOk, LoopOk, IdsBelow, GoneOk;
      BoxAt(boxes, e, limits);
      code := HandOn(e, m, answers);
      if code == Success {
        DirectKeeps(e, boxes[e], m, limits);
        Sent(e, Direct(boxes[e], m), m, old(accepted), {});
      } else if code != NoConnection {
        RefusedKeeps(e, boxes[e], m, limits);
        Settle(e, Refused(boxes[e], m), {});
      }
    }

    /** Puts a box back after nothing was handed on. */
    method Settle(e: EndpointId, b: Box, ghost skip: set<EndpointId>)
      requires ValidBut(skip) && e in boxes && BoxOk(e, b, limits)
      requires b.loop == boxes[e].loop && b.log.sent == boxes[e].log.sent
      requires closing || e in skip || OnTime(b, nearest[e])
      modifies `boxes
      ensures ValidBut(skip) && boxes == old(boxes)[e := b]
    {
      hide BoxesOk, BoxOk, SharesOk, Timely, WakersOk, LoopOk, IdsBelow, GoneOk;
      BoxesAfter(boxes, e, b, limits);
      SharesSame(boxes, accepted, e, b);
      if !closing {
        TimelyBox(boxes, nearest, e, b, skip);
      }
      IdsChanged(boxes, boxes[e := b], wakers, accepted, nextEndpoint);
      assert boxes[e := b].Keys == boxes.Keys;
      boxes := boxes[e := b];
    }

    /** Puts a box back after one message of it was handed on. */
    method Sent(e: EndpointId, b: Box, m: Message, ghost before: seq<Message>, ghost skip: set<EndpointId>)
      requires Keyed() && BoxesOk(boxes, limits) && LoopOk(accepted, delivered, loopQueue, loopBytes, limits) && SharesOk(boxes, before)
      requires WakersOk(nearest, wakers) && (!closing ==> Timely(boxes, nearest, skip))
      requires e in boxes && BoxOk(e, b, limits) && m.ep == e && (closing || e in skip || OnTime(b, nearest[e]))
      requires b.loop == boxes[e].loop && b.log.sent == boxes[e].log.sent + [m]
      requires accepted == if b.loop then before + [m] else before
      modifies `boxes
      ensures ValidBut(skip) && boxes == old(boxes)[e := b]
    {
      hide BoxesOk, BoxOk, SharesOk, Timely, WakersOk, LoopOk, IdsBelow, GoneOk;
      BoxesAfter(boxes, e, b, limits);
      if b.loop {
        SharesAfter(boxes, before, e, b, m);
      } else {
        SharesSame(boxes, before, e, b);
      }
      if !closing {
        TimelyBox(boxes, nearest, e, b, skip);
      }
      IdsChanged(boxes, boxes[e := b], wakers, accepted, nextEndpoint);
      assert boxes[e := b].Keys == boxes.Keys;
      boxes := boxes[e := b];
    }

    method Enqueue(e: EndpointId, m: Message) returns (code: Code)
      requires Valid() && e in boxes && NewMessage(e, boxes[e], m)
      modifies `boxes, `nearest, `wakers
      ensures Valid()
      ensures code == RoomCode(old(boxes)[e].queue, old(boxes)[e].bytes, m.size, limits)
      ensures boxes == old(boxes)[e :=
        if HasRoom(old(boxes)[e].queue, old(boxes)[e].bytes, m.size, limits) then Waiting(old(boxes)[e], m) else Refused(old(boxes)[e], m)]
    {
      hide BoxesOk, BoxOk, SharesOk, Timely, WakersOk, LoopOk, IdsBelow, GoneOk;
      BoxAt(boxes, e, limits);
      var full := false;
      if limits.count > 0 && |boxes[e].queue| + 1 > limits.count {
        full := true;
      }
      if limits.bytes > 0 && boxes[e].bytes + m.size > limits.bytes {
        full := true;
      }
      if !closing {
        OnTimeAt(boxes, nearest, e);
      }
      if full {
        RefusedKeeps(e, boxes[e], m, limits);
        Settle(e, Refused(boxes[e], m), {});
        return BufferLimit;
      }
      WaitingKeeps(e, boxes[e], m, limits);
      if !closing {
        TimelyLess(boxes, nearest, e);
      }
      Settle(e, Waiting(boxes[e], m), {e});
      WakeFor(e, m.expiry);
      return Success;
    }

    // -------------------------------------------------------------- retrying

    /** Takes the front message off and offers it to the connector; what that rejects is reported. */
    method SendFront(e: EndpointId, answers: Answers)
      requires ValidBut({e}) && e in boxes && boxes[e].queue != []
      modifies `boxes, `loopQueue, `loopBytes, `accepted
      ensures ValidBut({e}) && old(loopQueue) <= loopQueue
      ensures
        var m := old(boxes)[e].queue[0];
        var ok := if old(boxes)[e].loop then HasRoom(old(loopQueue), old(loopBytes), m.size, limits) else answers(m) == Success;
        && boxes == old(boxes)[e := Popped(old(boxes)[e], ok)]
        && TheLane() == Joined(old(TheLane()), m, old(boxes)[e].loop && ok)
    {
      hide BoxesOk, BoxOk, SharesOk, Timely, WakersOk, LoopOk, IdsBelow, GoneOk;
      BoxAt(boxes, e, limits);
      FrontIs(e, boxes[e], limits);
      var b, m := boxes[e], boxes[e].queue[0];
      var code := HandOn(e, m, answers);
      PoppedKeeps(e, b, code == Success, limits);
      if code == Success {
        Sent(e, Popped(b, true), m, old(accepted), {e});
      } else {
        Settle(e, Popped(b, false), {e});
      }
    }

    /** Takes the front message off and reports it failed. */
    method FailFront(e: EndpointId)
      requires ValidBut({e}) && e in boxes && boxes[e].queue != []
      modifies `boxes
      ensures ValidBut({e}) && boxes == old(boxes)[e := Popped(old(boxes)[e], false)]
    {
      hide BoxesOk, BoxOk, SharesOk, Timely, WakersOk, LoopOk, IdsBelow, GoneOk;
      BoxAt(boxes, e, limits);
      PoppedKeeps(e, boxes[e], false, limits);
      Settle(e, Popped(boxes[e], false), {e});
    }

    /** Drains the queue of an endpoint whose waker has just been taken out of the index: a ready one
        offers up to max messages to its connector, another one reports the leading expired ones. */
    method RetryPendingMessages(e: EndpointId, max: int, answers: Answers) returns (n: nat)
      requires e in boxes && Keyed() && Sound() && nearest[e] <= tick
      requires WakersOk(nearest[e := 0], wakers) && (!closing ==> Timely(boxes, nearest, {e}))
      modifies `boxes, `nearest, `wakers, `loopQueue, `loopBytes, `accepted
      ensures Valid() && boxes == old(boxes)[e := boxes[e]] && old(loopQueue) <= loopQueue
      ensures Drained(old(boxes)[e], boxes[e], old(TheLane()), TheLane(), limits, links[e].ready, answers, Budget(max), tick, n)
      ensures !closing && boxes[e].queue == [] ==> nearest[e] == 0
    {
      hide BoxesOk, BoxOk, SharesOk, Timely, WakersOk, LoopOk, IdsBelow, GoneOk;
      if nearest[e] <= tick {
        nearest := nearest[e := 0];
      }
      if !closing {
        TimelyBut(boxes, old(nearest), e, 0);
      }
      n := 0;
      if boxes[e].queue == [] {
        if !closing {
          TimelyAgain(boxes, nearest, e);
        }
        return;
      }
      n := Drain(e, Budget(max), answers);
      WakeForFront(e);
    }

    /** An endpoint that still has messages is woken when the first of them expires. */
    method WakeForFront(e: EndpointId)
      requires ValidBut({e}) && e in boxes && nearest[e] == 0
      modifies `nearest, `wakers
      ensures Valid() && (boxes[e].queue == [] ==> nearest == old(nearest))
    {
      hide BoxesOk, BoxOk, SharesOk, Timely, WakersOk, LoopOk, IdsBelow, GoneOk;
      if boxes[e].queue != [] {
        BoxAt(boxes, e, limits);
        FrontIs(e, boxes[e], limits);
        WakeFor(e, boxes[e].queue[0].expiry);
      } else if !closing {
        TimelyAgain(boxes, nearest, e);
      }
    }

    method Drain(e: EndpointId, max: nat, answers: Answers) returns (n: nat)
      requires ValidBut({e}) && e in boxes && max > 0
      modifies `boxes, `loopQueue, `loopBytes, `accepted
      ensures ValidBut({e}) && boxes == old(boxes)[e := boxes[e]] && old(loopQueue) <= loopQueue
      ensures Drained(old(boxes)[e], boxes[e], old(TheLane()), TheLane(), limits, links[e].ready, answers, max, tick, n)
    {
      hide BoxesOk, BoxOk, SharesOk, Timely, WakersOk, LoopOk, IdsBelow, GoneOk, Draining, Drained, Popped;
      var budget: int := max;
      n := 0;
      ghost var was, lane, ready := boxes[e], TheLane(), links[e].ready;
      DrainStarts(was, lane, limits, ready, answers, max, tick);
      while boxes[e].queue != []
        invariant ValidBut({e}) && e in boxes && boxes == old(boxes)[e := boxes[e]] && old(loopQueue) <= loopQueue
        invariant Draining(was, boxes[e], lane, TheLane(), limits, ready, answers, max, tick, n, budget) && boxes[e].loop == was.loop
        decreases |boxes[e].queue|
      {
        ghost var now, lane' := boxes[e], TheLane();
        if budget > 0 && links[e].ready {
          budget := budget - 1;
          ghost var ok := if now.loop then HasRoom(loopQueue, loopBytes, now.queue[0].size, limits) else answers(now.queue[0]) == Success;
          SendFront(e, answers);
          DrainStep(was, now, lane, lane', limits, ready, answers, max, tick, n, budget + 1, ok);
          PoppedIs(now, ok);
        } else if boxes[e].queue[0].expiry > tick || budget <= 0 {
          break;
        } else {
          FailFront(e);
          DrainStep(was, now, lane, lane', limits, ready, answers, max, tick, n, budget, false);
          PoppedIs(now, false);
        }
        n := n + 1;
      }
      DrainEnds(was, boxes[e], lane, TheLane(), limits, ready, answers, max, tick, n, budget);
    }

    // -------------------------------------------------------------- endpoints come and go

    /** Reports every waiting message failed, if there is a ready connector to report to; else leaves
        the queue alone. */
    method CancelPendingMessages(e: EndpointId)
      requires ValidBut({e}) && e in boxes
      modifies `boxes
      ensures ValidBut({e}) && boxes == old(boxes)[e := boxes[e]]
      ensures !links[e].ready ==> boxes[e] == old(boxes)[e]
      ensures links[e].ready ==> boxes[e].queue == [] && boxes[e].bytes == 0 && boxes[e].log.sent == old(boxes)[e].log.sent
      ensures boxes[e].log.pushed == old(boxes)[e].log.pushed && old(boxes)[e].log.failed <= boxes[e].log.failed
      ensures links[e].ready ==> forall m :: m in old(boxes)[e].queue ==> m.id in boxes[e].log.failed
    {
      hide BoxesOk, BoxOk, SharesOk, Timely, WakersOk, LoopOk, IdsBelow, GoneOk;
      if !links[e].ready {
        return;
      }
      while boxes[e].queue != []
        invariant ValidBut({e}) && e in boxes && boxes == old(boxes)[e := boxes[e]]
        invariant boxes[e].log.sent == old(boxes)[e].log.sent && boxes[e].log.pushed == old(boxes)[e].log.pushed
        invariant old(boxes)[e].log.failed <= boxes[e].log.failed
        invariant forall m :: m in old(boxes)[e].queue ==> m in boxes[e].queue || m.id in boxes[e].log.failed
        decreases |boxes[e].queue|
      {
        FailFront(e);
      }
      BoxAt(boxes, e, limits);
      EmptyBox(e, boxes[e], limits);
    }

    /** Drops an endpoint. What was waiting is reported first, unless no connector is ready: then it
        goes unreported. The endpoint's entry may linger in the index; what it is left with goes into the
        history. */
    method RemoveEndpoint(e: EndpointId)
      requires Valid() && e in boxes
      modifies `boxes, `links, `nearest, `gone
      ensures Valid() && RemovedTo(old(View()), e, View())
    {
      hide BoxesOk, BoxOk, SharesOk, Timely, WakersOk, LoopOk, IdsBelow, GoneOk, RemovedTo, LogGrows;
      if !closing {
        TimelyLess(boxes, nearest, e);
      }
      CancelPendingMessages(e);
      RemovalIs(old(View()), e, boxes[e]);
      assert boxes - {e} == old(boxes) - {e};
      DropEndpoint(e);
    }

    /** Takes an endpoint out of the tables and into the history, as it is. */
    method DropEndpoint(e: EndpointId)
      requires ValidBut({e}) && e in boxes
      modifies `boxes, `links, `nearest, `gone
      ensures Valid() && boxes == old(boxes) - {e} && links == old(links) - {e} && nearest == old(nearest) - {e}
      ensures gone == old(gone)[e := old(boxes)[e]]
    {
      hide BoxesOk, BoxOk, SharesOk, Timely, WakersOk, LoopOk, IdsBelow, GoneOk;
      BoxAt(boxes, e, limits);
      ShareAt(boxes, accepted, e);
      BelowAt(boxes, wakers, accepted, nextEndpoint, e);
      GoneMore(gone, boxes.Keys, accepted, nextEndpoint, limits, e, boxes[e]);
      Dropped(boxes, nearest, wakers, accepted, nextEndpoint, limits, e, closing);
      assert (boxes - {e}).Keys == boxes.Keys - {e};
      gone := gone[e := boxes[e]];
      boxes, links, nearest := boxes - {e}, links - {e}, nearest - {e};
    }

    /** A new endpoint, unless the application is closing. It is looked at on the next tick. */
    method CreateEndpoint(loop: bool, connected: bool, ready: bool, nextTick: Time) returns (e: EndpointId)
      requires Valid() && nextTick > 0
      modifies `boxes, `links, `nearest, `wakers, `nextEndpoint
      ensures Valid()
      ensures closing ==> View() == old(View())
      ensures !closing ==> e == old(nextEndpoint) && nextEndpoint == e + 1 && e !in old(boxes)
      ensures !closing ==> boxes == old(boxes)[e := Box([], 0, loop, Log([], {}, []))] && nearest == old(nearest)[e := nextTick]
      ensures !closing ==> links == old(links)[e := Link(loop || (connected && ready), loop || connected, tick + gcTimeout)]
    {
      hide BoxesOk, BoxOk, SharesOk, Timely, WakersOk, LoopOk, IdsBelow, GoneOk;
      e := nextEndpoint;
      if closing {
        return;
      }
      EnterEndpoint(Box([], 0, loop, Log([], {}, [])), Link(loop || (connected && ready), loop || connected, tick + gcTimeout));
      Wake(e, nextTick);
    }

    method EnterEndpoint(b: Box, link: Link)
      requires Valid() && b.queue == [] && b.bytes == 0 && b.log == Log([], {}, [])
      modifies `boxes, `links, `nearest, `nextEndpoint
      ensures var e := old(nextEndpoint);
        && Valid() && nextEndpoint == e + 1 && e !in old(boxes)
        && boxes == old(boxes)[e := b] && links == old(links)[e := link] && nearest == old(nearest)[e := 0]
    {
      hide BoxesOk, BoxOk, SharesOk, Timely, WakersOk, LoopOk, IdsBelow, GoneOk;
      var e := nextEndpoint;
      Added(boxes, nearest, wakers, accepted, nextEndpoint, limits, b);
      if !closing {
        AddedTimely(boxes, nearest, nextEndpoint, b);
      }
      GoneAdded(gone, boxes.Keys, accepted, nextEndpoint, limits);
      assert boxes[e := b].Keys == boxes.Keys + {e};
      boxes, links, nearest := boxes[e := b], links[e := link], nearest[e := 0];
      nextEndpoint := nextEndpoint + 1;
    }

    /** A handle joins the endpoint. */
    method BindHandle(e: EndpointId, ready: bool, nextTick: Time)
      requires Valid() && e in boxes && nextTick > 0
      modifies `links, `nearest, `wakers
      ensures Valid() && links == old(links)[e := old(links)[e].(bound := true, ready := old(links)[e].ready || ready)]
      ensures ready && !closing ==> 0 < nearest[e] <= nextTick
    {
      hide BoxesOk, BoxOk, SharesOk, Timely, WakersOk, LoopOk, IdsBelow, GoneOk;
      links := links[e := links[e].(bound := true, ready := links[e].ready || ready)];
      if ready {
        Wake(e, nextTick);
      }
    }

    /** A handle leaves the endpoint; readyLeft says whether another ready one stays. */
    method UnbindHandle(e: EndpointId, isLast: bool, readyLeft: bool, nextTick: Time)
      requires Valid() && e in boxes && nextTick > 0
      modifies `links, `nearest, `wakers
      ensures Valid()
      ensures isLast ==> links == old(links)[e := Link(false, false, nextTick + gcTimeout)]
      ensures isLast && !closing ==> 0 < nearest[e] <= links[e].gc
      ensures !isLast ==> links == old(links)[e := old(links)[e].(ready := readyLeft)] && nearest == old(nearest)
    {
      hide BoxesOk, BoxOk, SharesOk, Timely, WakersOk, LoopOk, IdsBelow, GoneOk;
      if isLast {
        links := links[e := Link(false, false, nextTick + gcTimeout)];
        Wake(e, nextTick + gcTimeout);
      } else {
        links := links[e := links[e].(ready := readyLeft)];
      }
    }

    /** A handle of the endpoint becomes ready. */
    method SetReady(e: EndpointId, nextTick: Time)
      requires Valid() && e in boxes && nextTick > 0
      modifies `links, `nearest, `wakers
      ensures Valid() && links == old(links)[e := old(links)[e].(ready := true)]
      ensures !closing ==> 0 < nearest[e] <= nextTick
    {
      hide BoxesOk, BoxOk, SharesOk, Timely, WakersOk, LoopOk, IdsBelow, GoneOk;
      links := links[e := links[e].(ready := true)];
      Wake(e, nextTick);
    }

    /** A handle of the endpoint stops being ready. */
    method SetUnready(e: EndpointId, readyLeft: bool)
      requires Valid() && e in boxes
      modifies `links, `nearest, `wakers
      ensures Valid() && links == old(links)[e := old(links)[e].(ready := readyLeft)] && nearest == old(nearest)
    {
      hide BoxesOk, BoxOk, SharesOk, Timely, WakersOk, LoopOk, IdsBelow, GoneOk;
      links := links[e := links[e].(ready := readyLeft)];
      if !links[e].bound && boxes[e].queue != [] {
        BoxAt(boxes, e, limits);
        FrontIs(e, boxes[e], limits);
        if !closing {
          OnTimeAt(boxes, nearest, e);
        }
        Wake(e, boxes[e].queue[0].expiry);
      }
    }

    // -------------------------------------------------------------- the loop

    /** Takes the earliest waker out of the index if it is due, retries its endpoint, and drops that
        endpoint when it has had no handle for long enough. */
    method WakeEarliest(max: int, answers: Answers) returns (n: nat, ghost first: (Time, EndpointId))
      requires Valid()
      modifies `boxes, `links, `nearest, `wakers, `loopQueue, `loopBytes, `accepted, `gone
      ensures Valid() && boxes.Keys <= old(boxes.Keys) && old(loopQueue) <= loopQueue
      ensures (forall w :: w in old(wakers) ==> w.0 > tick) ==> n == 0 && View() == old(View())
      ensures (exists w :: w in old(wakers) && w.0 <= tick) ==>
        && first in old(wakers) && (forall w :: w in old(wakers) ==> first.0 <= w.0)
        && WokenUp(old(boxes), boxes, old(TheLane()), TheLane(), limits, old(links), first.1, answers, Budget(max), tick, n)
      ensures Attended(old(View()), answers, max, limits, boxes, gone)
      ensures Grows(old(boxes), old(gone), boxes, gone) && OnlyIdleDropped(old(View()), boxes, links)
    {
      hide BoxesOk, BoxOk, SharesOk, Timely, WakersOk, LoopOk, IdsBelow, GoneOk, WokenUp, AttendedTo, Grows, OnlyIdleDropped;
      DropsNone(View(), boxes);
      n, first := 0, (0, 0);
      LiveOrGone();
      GrowsNot(boxes, gone);
      if wakers == {} {
        return;
      }
      ghost var least := EarliestExists(wakers);
      var next :| next in wakers && forall w :: w in wakers ==> next.0 <= w.0;
      first := next;
      if next.0 > tick {
        return;
      }
      n := WakeOne(next.0, next.1, max, answers);
    }

    /** Takes one due waker out of the index and retries its endpoint, if that still exists. */
    method WakeOne(t: Time, e: EndpointId, max: int, answers: Answers) returns (n: nat)
      requires Valid() && (t, e) in wakers && t <= tick
      modifies `boxes, `links, `nearest, `wakers, `loopQueue, `loopBytes, `accepted, `gone
      ensures Valid() && boxes.Keys <= old(boxes.Keys) && old(loopQueue) <= loopQueue
      ensures WokenUp(old(boxes), boxes, old(TheLane()), TheLane(), limits, old(links), e, answers, Budget(max), tick, n)
      ensures AttendedTo(old(View()), e, answers, max, limits, boxes, gone)
      ensures Grows(old(boxes), old(gone), boxes, gone) && OnlyIdleDropped(old(View()), boxes, links)
    {
      hide BoxesOk, BoxOk, SharesOk, Timely, WakersOk, LoopOk, IdsBelow, GoneOk;
      hide Drained, Grows, AttendedTo, OnlyIdleDropped, WokenUp;
      n := 0;
      LiveOrGone();
      NobodyWoken(View(), e, answers, max, limits);
      Unindexed(nearest, wakers, t, e);
      IdsFewerWakers(boxes, wakers, wakers - {(t, e)}, accepted, nextEndpoint);
      ghost var was := View();
      wakers := wakers - {(t, e)};
      if e in boxes {
        if !closing {
          TimelyLess(boxes, nearest, e);
        }
        SameButWakers(was, View(), e, answers, max, limits);
        n := Attend(e, max, answers);
      }
    }

    /** Retries an endpoint whose waker has just been taken out of the index, and recycles it. */
    method Attend(e: EndpointId, max: int, answers: Answers) returns (n: nat)
      requires e in boxes && Keyed() && Sound() && nearest[e] <= tick
      requires WakersOk(nearest[e := 0], wakers) && (!closing ==> Timely(boxes, nearest, {e}))
      modifies `boxes, `links, `nearest, `wakers, `loopQueue, `loopBytes, `accepted, `gone
      ensures Valid() && boxes.Keys <= old(boxes.Keys) && old(loopQueue) <= loopQueue
      ensures WokenUp(old(boxes), boxes, old(TheLane()), TheLane(), limits, old(links), e, answers, Budget(max), tick, n)
      ensures AttendedTo(old(View()), e, answers, max, limits, boxes, gone)
      ensures Grows(old(boxes), old(gone), boxes, gone) && OnlyIdleDropped(old(View()), boxes, links)
    {
      hide BoxesOk, BoxOk, SharesOk, Timely, WakersOk, LoopOk, IdsBelow, GoneOk, Drained, Grows, AttendedTo, OnlyIdleDropped;
      LiveOrGone();
      n := RetryPendingMessages(e, max, answers);
      ghost var now, lane := boxes[e], TheLane();
      Recycle(e);
      assert old(boxes)[e := now] - {e} == old(boxes) - {e};
      WokenIsAttended(old(View()), e, answers, max, limits, n, now, lane, boxes, gone);
      if !old(links)[e].bound && tick >= old(links)[e].gc {
        DropsIdle(old(View()), e, boxes, links);
      } else {
        DropsNone(old(View()), boxes);
      }
    }

    /** An endpoint without handles is dropped when its time has come, else woken for that. */
    method Recycle(e: EndpointId)
      requires Valid() && e in boxes
      modifies `boxes, `links, `nearest, `wakers, `gone
      ensures Valid() && boxes == if !old(links)[e].bound && tick >= old(links)[e].gc then old(boxes) - {e} else old(boxes)
      ensures Recycled(e, !old(links)[e].bound && tick >= old(links)[e].gc, old(boxes)[e].log, old(gone), gone)
      ensures links == if !old(links)[e].bound && tick >= old(links)[e].gc then old(links) - {e} else old(links)
    {
      hide BoxesOk, BoxOk, SharesOk, Timely, WakersOk, LoopOk, IdsBelow, GoneOk;
      if !links[e].bound {
        if tick >= links[e].gc {
          RemoveEndpoint(e);
        } else {
          Wake(e, links[e].gc);
        }
      }
    }

    /** Pushes from within a callback; a push to an endpoint that does not exist goes nowhere. */
    method PushAll(pushes: seq<Push>, answers: Answers)
      requires Valid()
      modifies `boxes, `nearest, `wakers, `loopQueue, `loopBytes, `accepted
      ensures Valid() && old(loopQueue) <= loopQueue && boxes.Keys == old(boxes.Keys)
      ensures Grows(old(boxes), gone, boxes, gone)
    {
      hide BoxesOk, BoxOk, SharesOk, Timely, WakersOk, LoopOk, IdsBelow, GoneOk, Grows;
      LiveOrGone();
      GrowsNot(boxes, gone);
      for i := 0 to |pushes|
        invariant Valid() && old(loopQueue) <= loopQueue && boxes.Keys == old(boxes.Keys)
        invariant Grows(old(boxes), gone, boxes, gone)
      {
        if pushes[i].e in boxes {
          ghost var before := boxes;
          var _ := PushForwardMessage(pushes[i].e, pushes[i].size, answers);
          GrowsTwice(old(boxes), gone, before, gone, boxes, gone);
        }
      }
    }

    /** Delivers the front of the loopback queue. It stays there while the application reacts to it,
        and leaves afterwards. */
    method DeliverFront(answers: Answers, replies: Replies)
      requires Valid() && loopQueue != []
      modifies `boxes, `nearest, `wakers, `loopQueue, `loopBytes, `accepted, `delivered
      ensures Valid() && boxes.Keys == old(boxes.Keys)
      ensures delivered == old(delivered) + [old(loopQueue)[0]] && old(loopQueue)[1..] <= loopQueue
      ensures Grows(old(boxes), gone, boxes, gone)
    {
      hide BoxesOk, BoxOk, SharesOk, Timely, WakersOk, LoopOk, IdsBelow, GoneOk, Grows;
      var m := loopQueue[0];
      PushAll(replies(m), answers);
      assert loopQueue[0] == m;
      DeliveredKeeps(accepted, delivered, loopQueue, loopBytes, limits);
      loopBytes := Minus(loopBytes, m.size);
      loopQueue := loopQueue[1..];
      delivered := delivered + [m];
    }

    /** Delivers in batches of a tenth of the loop limit until the queue is empty or the clock, which
        allows so many further batches, runs out. */
    method LoopbackProcess(max: int, batches: nat, answers: Answers, replies: Replies) returns (n: nat)
      requires Valid()
      modifies `boxes, `nearest, `wakers, `loopQueue, `loopBytes, `accepted, `delivered
      ensures Valid() && boxes.Keys == old(boxes.Keys)
      ensures old(delivered) <= delivered && n == |delivered| - |old(delivered)|
      ensures n == 0 <==> old(loopQueue) == []
      ensures old(loopQueue) != [] ==> old(delivered) + [old(loopQueue)[0]] <= delivered
      ensures Grows(old(boxes), gone, boxes, gone)
    {
      hide BoxesOk, BoxOk, SharesOk, Timely, WakersOk, LoopOk, IdsBelow, GoneOk, Grows;
      LiveOrGone();
      GrowsNot(boxes, gone);
      var most := if max <= 0 then 1000 else max;
      var left: int := batches;
      n := 0;
      while loopQueue != []
        invariant Valid() && boxes.Keys == old(boxes.Keys) && old(delivered) <= delivered && n == |delivered| - |old(delivered)|
        invariant n == 0 ==> loopQueue == old(loopQueue)
        invariant old(loopQueue) == [] ==> n == 0 && loopQueue == []
        invariant n > 0 ==> old(delivered) + [old(loopQueue)[0]] <= delivered
        invariant Grows(old(boxes), gone, boxes, gone)
        decreases left
      {
        ghost var before := boxes;
        var k := DeliverBatch(if most > 10 then most / 10 else most, answers, replies);
        GrowsTwice(old(boxes), gone, before, gone, boxes, gone);
        n := n + k;
        if left <= 0 {
          break;
        }
        left := left - 1;
      }
    }

    method DeliverBatch(limit: nat, answers: Answers, replies: Replies) returns (n: nat)
      requires Valid()
      modifies `boxes, `nearest, `wakers, `loopQueue, `loopBytes, `accepted, `delivered
      ensures Valid() && boxes.Keys == old(boxes.Keys) && n <= limit
      ensures old(delivered) <= delivered && n == |delivered| - |old(delivered)|
      ensures n == limit || loopQueue == []
      ensures n == 0 ==> loopQueue == old(loopQueue)
      ensures n > 0 ==> old(loopQueue) != [] && old(delivered) + [old(loopQueue)[0]] <= delivered
      ensures Grows(old(boxes), gone, boxes, gone)
    {
      hide BoxesOk, BoxOk, SharesOk, Timely, WakersOk, LoopOk, IdsBelow, GoneOk, Grows;
      LiveOrGone();
      GrowsNot(boxes, gone);
      n := 0;
      while n < limit && loopQueue != []
        invariant Valid() && boxes.Keys == old(boxes.Keys) && old(delivered) <= delivered && n == |delivered| - |old(delivered)| <= limit
        invariant n == 0 ==> loopQueue == old(loopQueue)
        invariant n > 0 ==> old(loopQueue) != [] && old(delivered) + [old(loopQueue)[0]] <= delivered
        invariant Grows(old(boxes), gone, boxes, gone)
      {
        ghost var before := boxes;
        DeliverFront(answers, replies);
        GrowsTwice(old(boxes), gone, before, gone, boxes, gone);
        n := n + 1;
      }
    }

    /** One round: an endpoint whose waker is due is attended to, and loopback delivers. */
    method Round(batches: nat, max: int, answers: Answers, replies: Replies) returns (more: bool)
      requires Valid()
      modifies `boxes, `links, `nearest, `wakers, `loopQueue, `loopBytes, `accepted, `delivered, `gone
      ensures Valid() && boxes.Keys <= old(boxes.Keys) && old(delivered) <= delivered
      ensures Attended(old(View()), answers, max, limits, boxes, gone)
      ensures old(loopQueue) != [] ==> old(delivered) + [old(loopQueue)[0]] <= delivered
      ensures Grows(old(boxes), old(gone), boxes, gone) && OnlyIdleDropped(old(View()), boxes, links)
    {
      hide BoxesOk, BoxOk, SharesOk, Timely, WakersOk, LoopOk, IdsBelow, GoneOk, Grows, WokenUp, AttendedTo, OnlyIdleDropped;
      LiveOrGone();
      var woken, _ := WakeEarliest(max, answers);
      ghost var low := View();
      LiveOrGone();
      ghost var mid, left := boxes, gone;
      var n := LoopbackProcess(max, batches, answers, replies);
      LiveOrGone();
      AttendedStill(old(View()), answers, max, limits, mid, left, boxes, gone);
      GrowsTwice(old(boxes), old(gone), mid, left, boxes, gone);
      DropsNone(low, boxes);
      DropsTwice(old(View()), low, boxes, links);
      more := woken + n > 0;
    }

    /** Wakes endpoints and delivers loopback messages until nothing happens or the clock runs out. What was
        due, or queued, at the beginning is not left where it was. */
    method ProcessInternalEvents(rounds: nat, batches: nat, max: int, answers: Answers, replies: Replies)
      requires Valid()
      modifies `boxes, `links, `nearest, `wakers, `loopQueue, `loopBytes, `accepted, `delivered, `gone
      ensures Valid() && boxes.Keys <= old(boxes.Keys) && old(delivered) <= delivered
      ensures Attended(old(View()), answers, max, limits, boxes, gone)
      ensures old(loopQueue) != [] ==> old(delivered) + [old(loopQueue)[0]] <= delivered
      ensures Grows(old(boxes), old(gone), boxes, gone) && OnlyIdleDropped(old(View()), boxes, links)
    {
      hide BoxesOk, BoxOk, SharesOk, Timely, WakersOk, LoopOk, IdsBelow, GoneOk, Grows, Attended, OnlyIdleDropped;
      DropsNone(View(), boxes);
      var more, first, left := true, true, rounds;
      LiveOrGone();
      GrowsNot(boxes, gone);
      while (first || left > 0) && more
        invariant Valid() && boxes.Keys <= old(boxes.Keys) && old(delivered) <= delivered && 0 <= left && (first ==> more)
        invariant first ==> View() == old(View())
        invariant !first ==> Attended(old(View()), answers, max, limits, boxes, gone)
        invariant !first && old(loopQueue) != [] ==> old(delivered) + [old(loopQueue)[0]] <= delivered
        invariant Grows(old(boxes), old(gone), boxes, gone) && OnlyIdleDropped(old(View()), boxes, links)
        decreases first, left
      {
        ghost var bs, g, low := boxes, gone, View();
        LiveOrGone();
        more := Round(batches, max, answers, replies);
        LiveOrGone();
        GrowsTwice(old(boxes), old(gone), bs, g, boxes, gone);
        DropsTwice(old(View()), low, boxes, links);
        if first {
          first := false;
        } else {
          left := left - 1;
          AttendedStill(old(View()), answers, max, limits, bs, g, boxes, gone);
        }
      }
    }

    /** Every event does what it should, keeps all invariants, and rewrites no history. */
    method Step(ev: Event)
      requires Valid()
      modifies this
      ensures Valid() && old(delivered) <= delivered
      ensures Does(old(View()), ev, limits, messageTimeout, gcTimeout, View())
      ensures Grows(old(boxes), old(gone), boxes, gone)
    {
      hide BoxesOk, BoxOk, SharesOk, Timely, WakersOk, LoopOk, IdsBelow, GoneOk, Grows, PushedTo, RemovedTo, Attended;
      LiveOrGone();
      GrowsNot(boxes, gone);
      match ev
      case Pushed(e, size, answers) =>
        if e in boxes {
          var _ := PushForwardMessage(e, size, answers);
        }
      case Created(loop, connected, ready, nextTick) =>
        if nextTick > 0 {
          FreshId();
          GrowsByOne(boxes, gone, nextEndpoint, Box([], 0, loop, Log([], {}, [])));
          var _ := CreateEndpoint(loop, connected, ready, nextTick);
        }
      case Removed(e) =>
        if e in boxes {
          RemoveEndpoint(e);
          RemovedGrows(old(View()), e, View());
        }
      case Ticked(now) =>
        if now > 0 {
          tick := now;
        }
      case Processed(rounds, batches, max, answers, replies) =>
        ProcessInternalEvents(rounds, batches, max, answers, replies);
      case Stopped =>
        closing := true;
      case _ =>
        HandleStep(ev);
    }

    method HandleStep(ev: Event)
      requires Valid() && (ev.HandleBound? || ev.HandleUnbound? || ev.HandleReady? || ev.HandleUnready?)
      modifies `links, `nearest, `wakers
      ensures Valid() && Does(old(View()), ev, limits, messageTimeout, gcTimeout, View())
    {
      hide BoxesOk, BoxOk, SharesOk, Timely, WakersOk, LoopOk, IdsBelow, GoneOk;
      match ev
      case HandleBound(e, ready, nextTick) =>
        if e in boxes && nextTick > 0 {
          BindHandle(e, ready, nextTick);
        }
      case HandleUnbound(e, isLast, readyLeft, nextTick) =>
        if e in boxes && nextTick > 0 {
          UnbindHandle(e, isLast, readyLeft, nextTick);
        }
      case HandleReady(e, nextTick) =>
        if e in boxes && nextTick > 0 {
          SetReady(e, nextTick);
        }
      case HandleUnready(e, readyLeft) =>
        if e in boxes {
          SetUnready(e, readyLeft);
        }
    }

    /** A run, with the states it goes through. */
    method Run(events: seq<Event>) returns (ghost trace: seq<Snapshot>)
      requires Valid()
      modifies this
      ensures Valid() && old(delivered) <= delivered
      ensures |trace| == |events| + 1 && trace[0] == old(View()) && trace[|events|] == View()
      ensures forall i :: 0 <= i < |events| ==> Does(trace[i], events[i], limits, messageTimeout, gcTimeout, trace[i + 1])
      ensures Grows(old(boxes), old(gone), boxes, gone)
    {
      hide BoxesOk, BoxOk, SharesOk, Timely, WakersOk, LoopOk, IdsBelow, GoneOk, Grows, Does;
      LiveOrGone();
      GrowsNot(boxes, gone);
      trace := [View()];
      for i := 0 to |events|
        invariant Valid() && old(delivered) <= delivered
        invariant |trace| == i + 1 && trace[0] == old(View()) && trace[i] == View()
        invariant forall k :: 0 <= k < i ==> Does(trace[k], events[k], limits, messageTimeout, gcTimeout, trace[k + 1])
        invariant Grows(old(boxes), old(gone), boxes, gone)
      {
        ghost var bs, g := boxes, gone;
        LiveOrGone();
        Step(events[i]);
        LiveOrGone();
        GrowsTwice(old(boxes), old(gone), bs, g, boxes, gone);
        trace := trace + [View()];
      }
    }
  }
}
