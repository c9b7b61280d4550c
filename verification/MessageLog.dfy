/** Message queues as values, and the history against which a message path is judged: what was
    pushed, what was reported failed, and what was handed on, all in order. */
module MessageLog {

  type EndpointId = nat
  type Time = nat

  /** id numbers the pushes to one endpoint; size is the length of the data. */
  datatype Message = Message(ep: EndpointId, id: nat, size: nat, expiry: Time)

  datatype Log = Log(pushed: seq<Message>, failed: set<nat>, sent: seq<Message>)

  /** The total size of a queue. */
  function Sum(q: seq<Message>): nat {
    if q == [] then 0 else q[0].size + Sum(q[1..])
  }

  lemma {:induction false} SumAppend(q: seq<Message>, m: Message)
    ensures Sum(q + [m]) == Sum(q) + m.size
    decreases |q|
  {
    if q != [] {
      assert (q + [m])[1..] == q[1..] + [m];
      SumAppend(q[1..], m);
    }
  }

  /** The pushed messages that have not been reported failed, in push order. */
  function Kept(pushed: seq<Message>, failed: set<nat>): seq<Message> {
    if pushed == [] then []
    else
      var last := pushed[|pushed| - 1];
      Kept(pushed[..|pushed| - 1], failed) + if last.id in failed then [] else [last]
  }

  ghost predicate Numbered(e: EndpointId, pushed: seq<Message>) {
    forall i :: 0 <= i < |pushed| ==> pushed[i].id == i && pushed[i].ep == e && pushed[i].size > 0
  }

  /** Every pushed message is exactly one of sent, queued and failed; the first two keep push order. */
  ghost predicate Accounted(e: EndpointId, log: Log, queue: seq<Message>) {
    && Numbered(e, log.pushed)
    && (forall i :: i in log.failed ==> i < |log.pushed|)
    && log.sent + queue == Kept(log.pushed, log.failed)
  }

  lemma {:induction false} KeptIgnoresLater(e: EndpointId, pushed: seq<Message>, failed: set<nat>, n: nat)
    requires Numbered(e, pushed) && |pushed| <= n
    ensures Kept(pushed, failed + {n}) == Kept(pushed, failed)
    decreases |pushed|
  {
    if pushed != [] {
      KeptIgnoresLater(e, pushed[..|pushed| - 1], failed, n);
    }
  }

  lemma {:induction false} KeptMembers(e: EndpointId, pushed: seq<Message>, failed: set<nat>, m: Message)
    requires Numbered(e, pushed) && m in Kept(pushed, failed)
    ensures m.id < |pushed| && pushed[m.id] == m && m.id !in failed
    decreases |pushed|
  {
    var n := |pushed| - 1;
    if m != pushed[n] || pushed[n].id in failed {
      KeptMembers(e, pushed[..n], failed, m);
    }
  }

  lemma {:induction false} KeptHasAll(e: EndpointId, pushed: seq<Message>, failed: set<nat>, i: nat)
    requires Numbered(e, pushed) && i < |pushed| && i !in failed
    ensures pushed[i] in Kept(pushed, failed)
    decreases |pushed|
  {
    var n := |pushed| - 1;
    if i < n {
      KeptHasAll(e, pushed[..n], failed, i);
    }
  }

  lemma KeptPush(e: EndpointId, pushed: seq<Message>, failed: set<nat>, m: Message)
    requires Numbered(e, pushed) && m.id == |pushed| && m.id !in failed
    ensures Kept(pushed + [m], failed) == Kept(pushed, failed) + [m]
    ensures Kept(pushed + [m], failed + {m.id}) == Kept(pushed, failed)
  {
    assert (pushed + [m])[..|pushed|] == pushed;
    KeptIgnoresLater(e, pushed, failed, m.id);
  }

  /** Reporting one message failed takes just that message out. */
  lemma {:induction false} KeptFail(e: EndpointId, pushed: seq<Message>, failed: set<nat>, a: seq<Message>, m: Message, b: seq<Message>)
    requires Numbered(e, pushed) && Kept(pushed, failed) == a + [m] + b
    ensures Kept(pushed, failed + {m.id}) == a + b
    decreases |pushed|
  {
    assert (a + [m] + b)[|a|] == m;
    KeptMembers(e, pushed, failed, m);
    var n := |pushed| - 1;
    var front, last := pushed[..n], pushed[n];
    if last.id in failed {
      KeptFail(e, front, failed, a, m, b);
    } else if b == [] {
      assert (a + [m])[..|a|] == a;
      assert Kept(front, failed) == a by {
        assert (Kept(front, failed) + [last])[..|Kept(front, failed)|] == Kept(front, failed);
      }
      KeptIgnoresLater(e, front, failed, n);
      assert a + b == a;
    } else {
      var b' := b[..|b| - 1];
      assert a + [m] + b == a + [m] + b' + [b[|b| - 1]];
      assert Kept(front, failed) == a + [m] + b' by {
        assert (Kept(front, failed) + [last])[..|Kept(front, failed)|] == Kept(front, failed);
      }
      assert m in Kept(front, failed) by {
        assert (a + [m] + b')[|a|] == m;
      }
      KeptMembers(e, front, failed, m);
      KeptFail(e, front, failed, a, m, b');
      assert a + b == a + b' + [last];
    }
  }

  // ---------------------------------------------------------------- steps

  /** A new message waits at the back of the queue. */
  lemma AccountedQueue(e: EndpointId, log: Log, queue: seq<Message>, m: Message)
    requires Accounted(e, log, queue) && m.ep == e && m.id == |log.pushed| && m.size > 0
    ensures Accounted(e, log.(pushed := log.pushed + [m]), queue + [m])
  {
    KeptPush(e, log.pushed, log.failed, m);
    assert log.sent + (queue + [m]) == log.sent + queue + [m];
  }

  /** A new message is handed on at once, which only happens when nothing is waiting. */
  lemma AccountedDirect(e: EndpointId, log: Log, m: Message)
    requires Accounted(e, log, []) && m.ep == e && m.id == |log.pushed| && m.size > 0
    ensures Accounted(e, log.(pushed := log.pushed + [m], sent := log.sent + [m]), [])
  {
    KeptPush(e, log.pushed, log.failed, m);
    assert log.sent + [] == log.sent;
  }

  /** A new message is refused. */
  lemma AccountedRefuse(e: EndpointId, log: Log, queue: seq<Message>, m: Message)
    requires Accounted(e, log, queue) && m.ep == e && m.id == |log.pushed| && m.size > 0
    ensures Accounted(e, log.(pushed := log.pushed + [m], failed := log.failed + {m.id}), queue)
  {
    KeptPush(e, log.pushed, log.failed, m);
  }

  /** The front of the queue is handed on. */
  lemma AccountedSend(e: EndpointId, log: Log, queue: seq<Message>)
    requires Accounted(e, log, queue) && queue != []
    ensures Accounted(e, log.(sent := log.sent + [queue[0]]), queue[1..])
  {
    assert log.sent + [queue[0]] + queue[1..] == log.sent + queue;
  }

  /** The front of the queue is reported failed. */
  lemma AccountedFail(e: EndpointId, log: Log, queue: seq<Message>)
    requires Accounted(e, log, queue) && queue != []
    ensures Accounted(e, log.(failed := log.failed + {queue[0].id}), queue[1..])
  {
    assert log.sent + queue == log.sent + [queue[0]] + queue[1..];
    KeptFail(e, log.pushed, log.failed, log.sent, queue[0], queue[1..]);
    assert queue[0] in Kept(log.pushed, log.failed) by {
      assert (log.sent + queue)[|log.sent|] == queue[0];
    }
    KeptMembers(e, log.pushed, log.failed, queue[0]);
  }

  /** What Accounted means for one message: it is failed, or sent, or queued, and never two of
      these. */
  lemma ExactlyOne(e: EndpointId, log: Log, queue: seq<Message>, i: nat)
    requires Accounted(e, log, queue) && i < |log.pushed|
    ensures i in log.failed <==> !(log.pushed[i] in log.sent || log.pushed[i] in queue)
    ensures !(log.pushed[i] in log.sent && log.pushed[i] in queue)
  {
    var all := Kept(log.pushed, log.failed);
    if i in log.failed {
      if log.pushed[i] in log.sent + queue {
        KeptMembers(e, log.pushed, log.failed, log.pushed[i]);
      }
    } else {
      KeptHasAll(e, log.pushed, log.failed, i);
      assert log.pushed[i] in log.sent + queue;
    }
    KeptInOrder(e, log.pushed, log.failed);
    forall j, k | 0 <= j < |log.sent| && 0 <= k < |queue| ensures log.sent[j] != queue[k] {
      assert log.sent[j] == all[j] && queue[k] == all[|log.sent| + k];
    }
  }

  ghost predicate Ascending(q: seq<Message>) {
    forall j, k :: 0 <= j < k < |q| ==> q[j].id < q[k].id
  }

  /** Kept messages come in the order in which they were pushed. */
  lemma {:induction false} KeptInOrder(e: EndpointId, pushed: seq<Message>, failed: set<nat>)
    requires Numbered(e, pushed)
    ensures Ascending(Kept(pushed, failed))
    decreases |pushed|
  {
    if pushed != [] {
      var n := |pushed| - 1;
      var front := Kept(pushed[..n], failed);
      KeptInOrder(e, pushed[..n], failed);
      forall m | m in front ensures m.id < n {
        KeptMembers(e, pushed[..n], failed, m);
      }
      var all := Kept(pushed, failed);
      forall j, k | 0 <= j < k < |all| ensures all[j].id < all[k].id {
        assert all[j] == front[j] && front[j] in front;
        if k < |front| {
          assert all[k] == front[k] && front[j].id < front[k].id;
        } else {
          assert all[k] == pushed[n] && pushed[n].id == n;
        }
      }
    }
  }

  // ---------------------------------------------------------------- one endpoint's share of a shared queue

  function From(q: seq<Message>, e: EndpointId): seq<Message> {
    if q == [] then []
    else From(q[..|q| - 1], e) + if q[|q| - 1].ep == e then [q[|q| - 1]] else []
  }

  lemma FromAppend(q: seq<Message>, m: Message, e: EndpointId)
    ensures From(q + [m], e) == if m.ep == e then From(q, e) + [m] else From(q, e)
  {
    assert (q + [m])[..|q|] == q;
  }

  lemma {:induction false} FromConcat(a: seq<Message>, b: seq<Message>, e: EndpointId)
    ensures From(a + b, e) == From(a, e) + From(b, e)
    decreases |b|
  {
    if b == [] {
      assert a + b == a;
    } else {
      var b' := b[..|b| - 1];
      assert a + b == a + b' + [b[|b| - 1]];
      FromConcat(a, b', e);
      FromAppend(a + b', b[|b| - 1], e);
    }
  }
}
