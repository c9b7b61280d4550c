/** Starting, stopping and rolling back the modules of an application. Every call into a module is
    logged; what the calls answer, and what the clock says, comes from the environment. */
module ModuleLifecycle {

  type Time = int

  /** asks says that a callback may still ask to delay the stop; counting that deadline is set. */
  datatype Suspend = Suspend(asks: bool, counting: bool, deadline: Time, duration: nat)

  datatype Module = Module(enabled: bool, actived: bool, suspend: Suspend)

  datatype What = Init | Ready | Stop | Timeout | Cleanup | InitFailedStop | InitFailedTimeout | InitFailedCleanup

  datatype Call = Call(what: What, mod: nat, result: int)

  // ---------------------------------------------------------------- the life of one module

  /** Skipped is the phase of a module that was never started and only cleaned up. */
  datatype Phase = Untouched | Inited | Done | Cleaned | Skipped | InitFailed | FailedDone | FailedCleaned | Wrong

  /** The calls a module may see in each phase; every other one is wrong, for good. */
  function After(p: Phase, what: What, result: int): Phase {
    match what
    case Init => if p != Untouched then Wrong else if result >= 0 then Inited else InitFailed
    case Ready => if p != Inited then Wrong else Inited
    case Stop => if p != Inited then Wrong else if result > 0 then Inited else Done
    case Timeout => if p != Inited then Wrong else Done
    case Cleanup => if p == Done then Cleaned else if p == Untouched then Skipped else Wrong
    case InitFailedStop => if p != InitFailed then Wrong else if result > 0 then InitFailed else FailedDone
    case InitFailedTimeout => if p != InitFailed then Wrong else FailedDone
    case InitFailedCleanup => if p != FailedDone then Wrong else FailedCleaned
  }

  function PhaseOf(calls: seq<Call>, m: nat): Phase {
    if calls == [] then Untouched
    else
      var c := calls[|calls| - 1];
      var p := PhaseOf(calls[..|calls| - 1], m);
      if c.mod == m then After(p, c.what, c.result) else p
  }

  lemma PhaseAppend(calls: seq<Call>, c: Call, m: nat)
    ensures PhaseOf(calls + [c], m) == if c.mod == m then After(PhaseOf(calls, m), c.what, c.result) else PhaseOf(calls, m)
  {
    assert (calls + [c])[..|calls|] == calls;
  }

  /** A wrong call stays on record. */
  lemma {:induction false} WrongStays(calls: seq<Call>, m: nat, k: nat)
    requires k <= |calls| && PhaseOf(calls[..k], m) == Wrong
    ensures PhaseOf(calls, m) == Wrong
    decreases |calls|
  {
    if k < |calls| {
      var front := calls[..|calls| - 1];
      assert front[..k] == calls[..k];
      WrongStays(front, m, k);
    } else {
      assert calls[..k] == calls;
    }
  }

  predicate InitedOk(calls: seq<Call>, m: nat) {
    exists j :: 0 <= j < |calls| && calls[j].what == Init && calls[j].mod == m && calls[j].result >= 0
  }

  predicate StopsPending(calls: seq<Call>, m: nat) {
    forall j :: 0 <= j < |calls| && calls[j].what == Stop && calls[j].mod == m ==> calls[j].result > 0
  }

  predicate Never(calls: seq<Call>, what: What, m: nat) {
    forall j :: 0 <= j < |calls| && calls[j].what == what ==> calls[j].mod != m
  }

  lemma {:induction false} UntouchedMeans(calls: seq<Call>, m: nat)
    requires PhaseOf(calls, m) == Untouched
    ensures forall j :: 0 <= j < |calls| ==> calls[j].mod != m
    decreases |calls|
  {
    if calls != [] {
      UntouchedMeans(calls[..|calls| - 1], m);
    }
  }

  lemma {:induction false} InitedMeans(calls: seq<Call>, m: nat)
    requires PhaseOf(calls, m) == Inited
    ensures InitedOk(calls, m) && StopsPending(calls, m) && Never(calls, Cleanup, m) && Never(calls, Timeout, m)
    decreases |calls|
  {
    var n := |calls| - 1;
    var front := calls[..n];
    if calls[n].mod == m && calls[n].what == Init {
      UntouchedMeans(front, m);
      assert calls[n].result >= 0;
    } else {
      InitedMeans(front, m);
      var j :| 0 <= j < |front| && front[j].what == Init && front[j].mod == m && front[j].result >= 0;
      assert calls[j] == front[j];
    }
    forall j | 0 <= j < |calls| ensures j < n ==> calls[j] == front[j] {
    }
  }

  /** What a log without wrong calls promises about stop: it is only called on modules whose init
      succeeded, and never again once it answered zero or less. */
  lemma StopsAreRight(calls: seq<Call>, m: nat, k: nat)
    requires PhaseOf(calls, m) != Wrong && k < |calls| && calls[k].what == Stop && calls[k].mod == m
    ensures InitedOk(calls[..k], m) && StopsPending(calls[..k], m) && Never(calls[..k], Cleanup, m)
  {
    assert calls[..k + 1][..k] == calls[..k] && calls[..k + 1][k] == calls[k];
    if PhaseOf(calls[..k], m) == Inited {
      InitedMeans(calls[..k], m);
    } else {
      assert PhaseOf(calls[..k + 1], m) == Wrong;
      WrongStays(calls, m, k + 1);
    }
  }

  lemma {:induction false} CleanedMeans(calls: seq<Call>, m: nat)
    requires PhaseOf(calls, m) in {InitFailed, FailedDone, FailedCleaned, Done}
    ensures Never(calls, Cleanup, m)
    decreases |calls|
  {
    var n := |calls| - 1;
    if calls[n].mod == m && calls[n].what == Init {
      UntouchedMeans(calls[..n], m);
    } else if PhaseOf(calls[..n], m) == Inited {
      InitedMeans(calls[..n], m);
    } else {
      CleanedMeans(calls[..n], m);
    }
    forall j | 0 <= j < |calls| ensures j < n ==> calls[j] == calls[..n][j] {
    }
  }

  /** And about cleanup: it is called at most once. */
  lemma CleanupIsOnce(calls: seq<Call>, m: nat, k: nat)
    requires PhaseOf(calls, m) != Wrong && k < |calls| && calls[k].what == Cleanup && calls[k].mod == m
    ensures Never(calls[..k], Cleanup, m)
  {
    assert calls[..k + 1][..k] == calls[..k] && calls[..k + 1][k] == calls[k];
    var p := PhaseOf(calls[..k], m);
    if p == Untouched {
      UntouchedMeans(calls[..k], m);
    } else if p == Done {
      CleanedMeans(calls[..k], m);
    } else {
      assert PhaseOf(calls[..k + 1], m) == Wrong;
      WrongStays(calls, m, k + 1);
    }
  }

  // ---------------------------------------------------------------- the environment

  /** One round of the event loop: what stop answers for each module, what the clock says when each
      module is asked whether it wants to wait and what it answers, what init_failed_stop answers,
      and whether the timeout has fired by the end of the round. */
  datatype Round = Round(result: nat -> int, now: nat -> Time, wants: nat -> bool, failedStop: int, fires: bool)

  /** The moment at which a module asked at this time stops being waited for. */
  function Deadline(s: Suspend, now: Time): Time {
    if s.counting then s.deadline else now + s.duration
  }

  /** Starting: what init answers for each module, after which init the timeout is seen to have
      fired, and whether it has after the final callback. */
  datatype Start = Start(result: nat -> int, fires: nat -> bool, firesAtEnd: bool)

  predicate Stops(ms: seq<Module>, r: Round, timeout: bool, i: nat)
    requires i < |ms|
  {
    var s := ms[i].suspend;
    !(s.asks && r.wants(i) && r.now(i) < Deadline(s, r.now(i)) && !timeout)
  }

  /** The calls to stop in one round: on each enabled module below n, but for a failed one, that is
      not waited for. */
  function StopCalls(ms: seq<Module>, r: Round, timeout: bool, n: nat, failed: nat): seq<Call>
    requires n <= |ms|
  {
    if n == 0 then []
    else
      StopCalls(ms, r, timeout, n - 1, failed) +
      if n - 1 != failed && ms[n - 1].enabled && Stops(ms, r, timeout, n - 1) then [Call(Stop, n - 1, r.result(n - 1))] else []
  }

  /** Once its deadline has come, a module that is still enabled is stopped in the round. */
  lemma {:induction false} PastDeadline(ms: seq<Module>, r: Round, timeout: bool, n: nat, failed: nat, i: nat)
    requires i < n <= |ms| && i != failed && ms[i].enabled
    requires ms[i].suspend.counting && ms[i].suspend.deadline <= r.now(i)
    ensures Call(Stop, i, r.result(i)) in StopCalls(ms, r, timeout, n, failed)
    decreases n
  {
    if i < n - 1 {
      PastDeadline(ms, r, timeout, n - 1, failed, i);
    }
  }

  /** Whether a module that may still be waited for asks to wait, in time: before its deadline, or, when it is
      asked for the first time, with any time at all to wait. */
  predicate Waits(m: Module, r: Round, i: nat) {
    m.suspend.asks && r.wants(i) && (if m.suspend.counting then r.now(i) < m.suspend.deadline else m.suspend.duration > 0)
  }

  /** Every call of calls is made in the order of the modules, and at most once for each. */
  predicate InOrder(calls: seq<Call>) {
    forall j, k :: 0 <= j < k < |calls| ==> calls[j].mod < calls[k].mod
  }

  /** A module is stopped in a round if and only if it is enabled, not the failed one, and there is a timeout
      or it does not wait; each once and in order, and no other call is made. */
  lemma {:induction false} StopCallsExactly(ms: seq<Module>, r: Round, timeout: bool, n: nat, failed: nat)
    requires n <= |ms|
    ensures var calls := StopCalls(ms, r, timeout, n, failed);
      && InOrder(calls)
      && (forall c :: c in calls ==> c.mod < n && c == Call(Stop, c.mod, r.result(c.mod)))
      && (forall i :: 0 <= i < n ==>
            (Call(Stop, i, r.result(i)) in calls <==> i != failed && ms[i].enabled && (timeout || !Waits(ms[i], r, i))))
    decreases n
  {
    hide Waits, Stops, InOrder;
    if n == 0 {
      NoCalls();
    } else {
      StopCallsExactly(ms, r, timeout, n - 1, failed);
      StopsUnlessWaiting(ms, r, timeout, n - 1);
      var front, c, calls := StopCalls(ms, r, timeout, n - 1, failed), Call(Stop, n - 1, r.result(n - 1)), StopCalls(ms, r, timeout, n, failed);
      OneMoreCall(front, c);
      assert calls == if n - 1 != failed && ms[n - 1].enabled && Stops(ms, r, timeout, n - 1) then front + [c] else front;
      forall i | 0 <= i < n
        ensures Call(Stop, i, r.result(i)) in calls <==> i != failed && ms[i].enabled && (timeout || !Waits(ms[i], r, i))
      {
        if i < n - 1 {
          assert Call(Stop, i, r.result(i)) in calls <==> Call(Stop, i, r.result(i)) in front;
        }
      }
    }
  }

  lemma NoCalls()
    ensures InOrder([])
  {
  }

  lemma OneMoreCall(calls: seq<Call>, c: Call)
    requires InOrder(calls) && forall x :: x in calls ==> x.mod < c.mod
    ensures InOrder(calls + [c]) && c !in calls
    ensures forall x :: x in calls + [c] <==> x in calls || x == c
  {
  }

  lemma StopsUnlessWaiting(ms: seq<Module>, r: Round, timeout: bool, i: nat)
    requires i < |ms|
    ensures Stops(ms, r, timeout, i) <==> timeout || !Waits(ms[i], r, i)
  {
  }

  /** A module that is asked whether it waits starts counting, if it has not yet, and may ask no more once it
      does not wait; one that is stopped is disabled unless it answers that it needs more time. */
  function AskedToStop(m: Module, r: Round, timeout: bool, i: nat): Module {
    var s := m.suspend;
    var s' := if !s.asks then s
      else Suspend.Suspend(Waits(m, r, i), true, if s.counting then s.deadline else r.now(i) + s.duration, s.duration);
    if (Waits(m, r, i) && !timeout) || r.result(i) > 0 then m.(suspend := s') else Module(false, false, s')
  }

  /** The modules after one round of stopping those below bound, but for a failed one. */
  function AfterRound(ms: seq<Module>, r: Round, timeout: bool, bound: nat, failed: nat): (ms': seq<Module>)
    ensures |ms'| == |ms|
  {
    seq(|ms|, i requires 0 <= i < |ms| =>
      if i < bound && i != failed && ms[i].enabled then AskedToStop(ms[i], r, timeout, i) else ms[i])
  }

  /** The timeout is told to each module below n that is enabled, but for a failed one. */
  function TimeoutCalls(ms: seq<Module>, n: nat, failed: nat): seq<Call>
    requires n <= |ms|
  {
    if n == 0 then []
    else TimeoutCalls(ms, n - 1, failed) + if n - 1 != failed && ms[n - 1].enabled then [Call(Timeout, n - 1, 0)] else []
  }

  lemma {:induction false} TimeoutCallsExactly(ms: seq<Module>, n: nat, failed: nat)
    requires n <= |ms|
    ensures var calls := TimeoutCalls(ms, n, failed);
      && InOrder(calls)
      && (forall c :: c in calls ==> c.mod < n && c == Call(Timeout, c.mod, 0))
      && (forall i :: 0 <= i < n ==> (Call(Timeout, i, 0) in calls <==> i != failed && ms[i].enabled))
    decreases n
  {
    if n > 0 {
      TimeoutCallsExactly(ms, n - 1, failed);
    }
  }

  /** A deadline, once set, stays. */
  predicate DeadlineKept(before: Module, now: Module) {
    before.suspend.counting ==> now.suspend.counting && now.suspend.deadline == before.suspend.deadline
  }

  predicate DeadlinesKept(before: seq<Module>, now: seq<Module>) {
    |before| == |now| && forall i :: 0 <= i < |now| ==> DeadlineKept(before[i], now[i])
  }

  /** Every enabled module below n starts well and in time. */
  predicate GoodBelow(ms: seq<Module>, start: Start, n: nat)
    requires n <= |ms|
  {
    forall i :: 0 <= i < n && ms[i].enabled ==> start.result(i) >= 0 && !start.fires(i)
  }

  lemma NoneGood(ms: seq<Module>, start: Start)
    ensures GoodBelow(ms, start, 0)
  {
  }

  lemma GoodMore(ms: seq<Module>, start: Start, i: nat)
    requires i < |ms|
    ensures GoodBelow(ms, start, i + 1) <==> GoodBelow(ms, start, i) && (ms[i].enabled ==> start.result(i) >= 0 && !start.fires(i))
    ensures GoodBelow(ms, start, |ms|) ==> GoodBelow(ms, start, i + 1)
  {
  }

  /** The timeout is seen to have fired right after module i was started, and not before. */
  predicate TimesOutAfter(ms: seq<Module>, start: Start, i: nat)
    requires i < |ms|
  {
    GoodBelow(ms, start, i) && ms[i].enabled && start.result(i) >= 0 && start.fires(i)
  }

  /** Where a start breaks off: at the first module that fails, or right after the one that is started
      when the timeout has fired, or at the very end. */
  predicate BreaksAt(ms: seq<Module>, start: Start, bound: nat, failed: nat)
    requires bound <= |ms|
  {
    if failed < |ms| then bound == failed && GoodBelow(ms, start, failed) && ms[failed].enabled && start.result(failed) < 0
    else
      || (bound > 0 && TimesOutAfter(ms, start, bound - 1))
      || (bound == |ms| && GoodBelow(ms, start, bound) && start.firesAtEnd)
  }

  // ---------------------------------------------------------------- the modules together

  /** The phase a module is in while the modules below bound are started, but for a failed one.
      was says which modules were enabled at first. */
  ghost function Expected(ms: seq<Module>, was: seq<bool>, bound: nat, failed: nat, fp: Phase, m: nat): Phase
    requires bound <= |was| == |ms|
  {
    if m == failed then fp
    else if m >= bound || !was[m] then Untouched
    else if ms[m].enabled then Inited else Done
  }

  ghost predicate Started(ms: seq<Module>, calls: seq<Call>, was: seq<bool>, bound: nat, failed: nat, fp: Phase) {
    && bound <= |was| == |ms|
    && (failed >= |ms| ==> fp == Untouched)
    && (forall i :: 0 <= i < |ms| && !was[i] ==> !ms[i].enabled)
    && (forall m: nat :: PhaseOf(calls, m) == Expected(ms, was, bound, failed, fp, m))
  }

  ghost function FailedPhase(n: nat, failed: nat, needStop: bool): Phase {
    if failed >= n then Untouched else if needStop then InitFailed else FailedDone
  }

  ghost predicate AllStopped(ms: seq<Module>, bound: nat, failed: nat) {
    forall i :: 0 <= i < bound && i < |ms| && i != failed ==> !ms[i].enabled
  }

  /** Cleanup of the modules below hi and not below lo, last one first. */
  function Cleanups(lo: nat, hi: nat, failed: nat): seq<Call>
    decreases hi - lo
  {
    if lo >= hi then []
    else Cleanups(lo + 1, hi, failed) + if lo == failed then [] else [Call(Cleanup, lo, 0)]
  }

  lemma {:induction false} CleanupsExactly(lo: nat, hi: nat, failed: nat)
    ensures var calls := Cleanups(lo, hi, failed);
      && (forall j, k :: 0 <= j < k < |calls| ==> calls[j].mod > calls[k].mod)
      && (forall c :: c in calls <==> lo <= c.mod < hi && c.mod != failed && c == Call(Cleanup, c.mod, 0))
    decreases hi - lo
  {
    if lo < hi {
      CleanupsExactly(lo + 1, hi, failed);
    }
  }

  /** The calls that start the modules below n, or tell them that the application is ready. */
  function StartCalls(ms: seq<Module>, what: What, result: nat -> int, n: nat): seq<Call>
    requires n <= |ms|
  {
    if n == 0 then []
    else StartCalls(ms, what, result, n - 1) + if ms[n - 1].enabled then [Call(what, n - 1, result(n - 1))] else []
  }

  lemma {:induction false} StartCallsExactly(ms: seq<Module>, what: What, result: nat -> int, n: nat)
    requires n <= |ms|
    ensures var calls := StartCalls(ms, what, result, n);
      && InOrder(calls)
      && (forall c :: c in calls <==> c.mod < n && ms[c.mod].enabled && c == Call(what, c.mod, result(c.mod)))
    decreases n
  {
    if n > 0 {
      StartCallsExactly(ms, what, result, n - 1);
    }
  }

  lemma {:induction false} StartCallsSame(ms: seq<Module>, ms': seq<Module>, what: What, result: nat -> int, n: nat)
    requires n <= |ms| == |ms'| && forall i :: 0 <= i < |ms| ==> ms[i].enabled == ms'[i].enabled
    ensures StartCalls(ms, what, result, n) == StartCalls(ms', what, result, n)
    decreases n
  {
    if n > 0 {
      StartCallsSame(ms, ms', what, result, n - 1);
    }
  }

  const NoResult: nat -> int := _ => 0

  /** The final phase of every module after the modules below bound have been cleaned up, down to lo. */
  ghost function Final(was: seq<bool>, lo: nat, bound: nat, failed: nat, fp: Phase, m: nat): Phase
    requires bound <= |was|
  {
    if m == failed then fp
    else if m >= bound then Untouched
    else if was[m] then (if m < lo then Done else Cleaned)
    else if m < lo then Untouched else Skipped
  }

  ghost predicate CleanedTo(calls: seq<Call>, was: seq<bool>, lo: nat, bound: nat, failed: nat, fp: Phase)
    requires bound <= |was|
  {
    forall m: nat :: PhaseOf(calls, m) == Final(was, lo, bound, failed, fp, m)
  }

  lemma StartedStep(ms: seq<Module>, ms': seq<Module>, calls: seq<Call>, was: seq<bool>, bound: nat, failed: nat, fp: Phase, c: Call)
    requires Started(ms, calls, was, bound, failed, fp)
    requires c.mod < bound && c.mod != failed && ms[c.mod].enabled
    requires |ms'| == |ms| && forall i :: 0 <= i < |ms| && i != c.mod ==> ms'[i].enabled == ms[i].enabled
    requires After(Inited, c.what, c.result) == if ms'[c.mod].enabled then Inited else Done
    ensures Started(ms', calls + [c], was, bound, failed, fp)
  {
    forall m: nat ensures PhaseOf(calls + [c], m) == Expected(ms', was, bound, failed, fp, m) {
      PhaseAppend(calls, c, m);
      assert PhaseOf(calls, m) == Expected(ms, was, bound, failed, fp, m);
    }
  }

  lemma FailedStep(ms: seq<Module>, calls: seq<Call>, was: seq<bool>, bound: nat, fp: Phase, c: Call)
    requires Started(ms, calls, was, bound, c.mod, fp) && c.mod < |ms|
    ensures Started(ms, calls + [c], was, bound, c.mod, After(fp, c.what, c.result))
  {
    forall m: nat ensures PhaseOf(calls + [c], m) == Expected(ms, was, bound, c.mod, After(fp, c.what, c.result), m) {
      PhaseAppend(calls, c, m);
      assert PhaseOf(calls, m) == Expected(ms, was, bound, c.mod, fp, m);
    }
  }

  lemma CleanupStep(calls: seq<Call>, was: seq<bool>, lo: nat, bound: nat, failed: nat, fp: Phase)
    requires lo < bound <= |was| && lo != failed && CleanedTo(calls, was, lo + 1, bound, failed, fp)
    ensures CleanedTo(calls + [Call(Cleanup, lo, 0)], was, lo, bound, failed, fp)
  {
    var c := Call(Cleanup, lo, 0);
    forall m: nat ensures PhaseOf(calls + [c], m) == Final(was, lo, bound, failed, fp, m) {
      PhaseAppend(calls, c, m);
      assert PhaseOf(calls, m) == Final(was, lo + 1, bound, failed, fp, m);
    }
  }

  lemma NoneStarted(ms: seq<Module>)
    ensures Started(ms, [], Enabled(ms), 0, |ms|, Untouched)
  {
  }

  lemma InitStep(ms: seq<Module>, ms': seq<Module>, calls: seq<Call>, was: seq<bool>, i: nat, c: Call)
    requires i < |ms| && Started(ms, calls, was, i, |ms|, Untouched) && was[i] && ms[i].enabled
    requires |ms'| == |ms| && forall k :: 0 <= k < |ms| ==> ms'[k].enabled == ms[k].enabled
    requires c.what == Init && c.mod == i
    ensures c.result >= 0 ==> Started(ms', calls + [c], was, i + 1, |ms|, Untouched)
    ensures c.result < 0 ==> Started(ms', calls + [c], was, i, i, InitFailed)
  {
    forall m: nat
      ensures c.result >= 0 ==> PhaseOf(calls + [c], m) == Expected(ms', was, i + 1, |ms|, Untouched, m)
      ensures c.result < 0 ==> PhaseOf(calls + [c], m) == Expected(ms', was, i, i, InitFailed, m)
    {
      PhaseAppend(calls, c, m);
      assert PhaseOf(calls, m) == Expected(ms, was, i, |ms|, Untouched, m);
    }
  }

  lemma StartedFlags(ms: seq<Module>, calls: seq<Call>, was: seq<bool>, i: nat)
    requires Started(ms, calls, was, i, |ms|, Untouched) && i < |ms|
    ensures |was| == |ms| && (ms[i].enabled ==> was[i])
  {
  }

  lemma SkipStep(ms: seq<Module>, calls: seq<Call>, was: seq<bool>, i: nat)
    requires i < |ms| && Started(ms, calls, was, i, |ms|, Untouched) && !was[i]
    ensures Started(ms, calls, was, i + 1, |ms|, Untouched)
  {
    forall m: nat ensures PhaseOf(calls, m) == Expected(ms, was, i + 1, |ms|, Untouched, m) {
      assert PhaseOf(calls, m) == Expected(ms, was, i, |ms|, Untouched, m);
    }
  }

  lemma ReadyToClean(ms: seq<Module>, calls: seq<Call>, was: seq<bool>, bound: nat, failed: nat, fp: Phase)
    requires Started(ms, calls, was, bound, failed, fp) && AllStopped(ms, bound, failed)
    ensures CleanedTo(calls, was, bound, bound, failed, fp)
  {
    forall m: nat ensures PhaseOf(calls, m) == Final(was, bound, bound, failed, fp, m) {
      assert PhaseOf(calls, m) == Expected(ms, was, bound, failed, fp, m);
    }
  }

  function Enabled(ms: seq<Module>): (was: seq<bool>)
    ensures |was| == |ms|
  {
    seq(|ms|, i requires 0 <= i < |ms| => ms[i].enabled)
  }

  lemma SameLength(ms: seq<Module>, calls: seq<Call>, was: seq<bool>, bound: nat, failed: nat, fp: Phase)
    requires Started(ms, calls, was, bound, failed, fp)
    ensures |was| == |ms|
  {
  }

  // ---------------------------------------------------------------- the rounds of a roll-back

  /** The failed module has asked for more time in each of the first k rounds. */
  predicate StillFailing(rounds: seq<Round>, failed: nat, n: nat, k: nat)
    requires k <= |rounds|
  {
    failed < n && forall j :: 0 <= j < k ==> rounds[j].failedStop > 0
  }

  /** After k rounds something is left to wait for. */
  ghost predicate Remains(ms: seq<Module>, rounds: seq<Round>, bound: nat, failed: nat, k: nat)
    requires k <= |rounds|
  {
    !AllStopped(ms, bound, failed) || StillFailing(rounds, failed, |ms|, k)
  }

  /** Round j is gone through, being the first one or needed after those before it. */
  ghost predicate GoesThrough(states: seq<seq<Module>>, rounds: seq<Round>, bound: nat, failed: nat, j: nat)
    requires j < |rounds| && j + 1 < |states|
  {
    && states[j + 1] == AfterRound(states[j], rounds[j], false, bound, failed)
    && (j > 0 ==> Remains(states[j], rounds, bound, failed, j) && !rounds[j - 1].fires)
  }

  /** states are the modules before, between and after the rounds of stopping that are gone through: one
      round after the other, for as long as something remains and the timeout has not fired. */
  ghost predicate Rounds(states: seq<seq<Module>>, rounds: seq<Round>, bound: nat, failed: nat, n: nat) {
    && 0 < |states| <= |rounds| + 1
    && (forall j :: 0 <= j < |states| ==> |states[j]| == n)
    && (forall j :: 0 <= j < |states| - 1 ==> GoesThrough(states, rounds, bound, failed, j))
  }

  /** Whether the rounds end in a timeout: it had fired before, or fires after the last of them, or there are
      no more, while something remains. */
  ghost predicate EndsInTimeout(early: bool, states: seq<seq<Module>>, rounds: seq<Round>, bound: nat, failed: nat)
    requires 0 < |states| <= |rounds| + 1
  {
    var k := |states| - 1;
    early || rounds == [] || (k > 0 && Remains(states[k], rounds, bound, failed, k) && (rounds[k - 1].fires || k == |rounds|))
  }

  /** When the rounds may end: with a timeout, or when nothing remains. */
  ghost predicate RoundsEnd(early: bool, states: seq<seq<Module>>, rounds: seq<Round>, bound: nat, failed: nat)
    requires 0 < |states| <= |rounds| + 1
  {
    && (early ==> |states| == 1)
    && (!EndsInTimeout(early, states, rounds, bound, failed) ==>
          |states| > 1 && !Remains(states[|states| - 1], rounds, bound, failed, |states| - 1))
  }

  /** The calls of the first k rounds: in each the modules that do not wait, and then the failed one until it
      is done. */
  function RoundCalls(states: seq<seq<Module>>, rounds: seq<Round>, bound: nat, failed: nat, n: nat, k: nat): seq<Call>
    requires k < |states| <= |rounds| + 1 && bound <= n && forall j :: 0 <= j < |states| ==> |states[j]| == n
  {
    if k == 0 then []
    else
      RoundCalls(states, rounds, bound, failed, n, k - 1) +
      StopCalls(states[k - 1], rounds[k - 1], false, bound, failed) +
      if StillFailing(rounds, failed, n, k - 1) then [Call(InitFailedStop, failed, rounds[k - 1].failedStop)] else []
  }

  /** All calls that undo a start. */
  ghost function UndoCalls(early: bool, states: seq<seq<Module>>, rounds: seq<Round>, bound: nat, failed: nat, n: nat): seq<Call>
    requires Rounds(states, rounds, bound, failed, n) && bound <= n
  {
    var k, late := |states| - 1, EndsInTimeout(early, states, rounds, bound, failed);
    RoundCalls(states, rounds, bound, failed, n, k) +
    (if late then TimeoutCalls(states[k], bound, failed) else []) +
    (if late && StillFailing(rounds, failed, n, k) then [Call(InitFailedTimeout, failed, 0)] else []) +
    (if failed < n then [Call(InitFailedCleanup, failed, 0)] else []) +
    Cleanups(0, bound, failed)
  }

  lemma UndoCallsAfter(p: seq<Call>, early: bool, states: seq<seq<Module>>, rounds: seq<Round>, bound: nat, failed: nat, n: nat)
    requires Rounds(states, rounds, bound, failed, n) && bound <= n
    ensures 0 < |states| <= |rounds| + 1 && forall j :: 0 <= j < |states| ==> |states[j]| == n
    ensures var k, late := |states| - 1, EndsInTimeout(early, states, rounds, bound, failed);
      p + UndoCalls(early, states, rounds, bound, failed, n) ==
        p + RoundCalls(states, rounds, bound, failed, n, k) +
        (if late then TimeoutCalls(states[k], bound, failed) else []) +
        (if late && StillFailing(rounds, failed, n, k) then [Call(InitFailedTimeout, failed, 0)] else []) +
        (if failed < n then [Call(InitFailedCleanup, failed, 0)] else []) +
        Cleanups(0, bound, failed)
  {
    hide EndsInTimeout, StillFailing, Cleanups, RoundCalls, TimeoutCalls, GoesThrough;
  }

  /** A start that failed at module failed, or at the timeout when there is no such module, has been
      undone: every module below bound that had been started was stopped or timed out and then cleaned
      up, last one first; the failed one saw only its own calls, and no later one saw any. states are the
      modules before, between and after the rounds of stopping. */
  ghost predicate RolledBack(was: seq<Module>, ms: seq<Module>, calls: seq<Call>, start: Start, rounds: seq<Round>,
                             bound: nat, failed: nat, states: seq<seq<Module>>) {
    && |ms| == |was| >= bound && failed <= |ms| && BreaksAt(was, start, bound, failed)
    && CleanedTo(calls, Enabled(was), 0, bound, failed, if failed < |ms| then FailedCleaned else Untouched)
    && AllStopped(ms, bound, failed)
    && (forall i :: bound <= i < |ms| ==> ms[i].enabled == was[i].enabled)
    && Rounds(states, rounds, bound, failed, |ms|) && SameButActived(was, states[0])
    && RoundsEnd(failed == |ms|, states, rounds, bound, failed)
    && calls ==
         StartCalls(was, Init, start.result, if failed < |ms| then failed + 1 else bound) +
         UndoCalls(failed == |ms|, states, rounds, bound, failed, |ms|)
  }

  ghost predicate SameButActived(was: seq<Module>, ms: seq<Module>) {
    |ms| == |was| && forall i :: 0 <= i < |ms| ==> ms[i] == was[i].(actived := ms[i].actived)
  }

  /** One more round is gone through. */
  lemma RoundsMore(states: seq<seq<Module>>, ms: seq<Module>, rounds: seq<Round>, bound: nat, failed: nat, n: nat)
    requires Rounds(states, rounds, bound, failed, n) && |states| <= |rounds| && bound <= n
    requires ms == AfterRound(states[|states| - 1], rounds[|states| - 1], false, bound, failed)
    requires |states| > 1 ==> Remains(states[|states| - 1], rounds, bound, failed, |states| - 1) && !rounds[|states| - 2].fires
    ensures Rounds(states + [ms], rounds, bound, failed, n)
  {
    hide AfterRound, Remains;
    var k, longer := |states|, states + [ms];
    forall j | 0 <= j < k ensures GoesThrough(longer, rounds, bound, failed, j) {
      assert longer[j] == states[j];
      if j < k - 1 {
        assert longer[j + 1] == states[j + 1];
        assert GoesThrough(states, rounds, bound, failed, j);
      }
    }
  }

  lemma RoundCallsMore(states: seq<seq<Module>>, ms: seq<Module>, rounds: seq<Round>, bound: nat, failed: nat, n: nat)
    requires 0 < |states| <= |rounds| && |ms| == n && bound <= n && forall j :: 0 <= j < |states| ==> |states[j]| == n
    ensures var k, longer := |states|, states + [ms];
      && (forall j :: 0 <= j < |longer| ==> |longer[j]| == n)
      && RoundCalls(longer, rounds, bound, failed, n, k) == RoundCalls(states, rounds, bound, failed, n, k - 1) +
           StopCalls(states[k - 1], rounds[k - 1], false, bound, failed) +
           if StillFailing(rounds, failed, n, k - 1) then [Call(InitFailedStop, failed, rounds[k - 1].failedStop)] else []
  {
    hide StillFailing, StopCalls;
    RoundCallsLonger(states, ms, rounds, bound, failed, n, |states| - 1);
  }

  lemma SameSuspends(first: seq<Module>, ms: seq<Module>, ms': seq<Module>)
    requires DeadlinesKept(first, ms) && |ms'| == |ms| && forall i :: 0 <= i < |ms| ==> ms'[i].suspend == ms[i].suspend
    ensures DeadlinesKept(first, ms')
  {
  }

  lemma RoundsSize(states: seq<seq<Module>>, rounds: seq<Round>, bound: nat, failed: nat, n: nat)
    requires Rounds(states, rounds, bound, failed, n)
    ensures 0 < |states| <= |rounds| + 1 && forall j :: 0 <= j < |states| ==> |states[j]| == n
  {
  }

  lemma FailedPhaseAtFirst(n: nat, failed: nat)
    ensures FailedPhase(n, failed, failed < n) == if failed < n then InitFailed else Untouched
  {
  }

  lemma RoundsStart(ms: seq<Module>, rounds: seq<Round>, bound: nat, failed: nat)
    requires bound <= |ms|
    ensures Rounds([ms], rounds, bound, failed, |ms|) && RoundCalls([ms], rounds, bound, failed, |ms|, 0) == []
  {
  }

  lemma {:induction false} RoundCallsLonger(states: seq<seq<Module>>, ms: seq<Module>, rounds: seq<Round>, bound: nat, failed: nat, n: nat, k: nat)
    requires k < |states| <= |rounds| && |ms| == n && bound <= n && forall j :: 0 <= j < |states| ==> |states[j]| == n
    ensures RoundCalls(states + [ms], rounds, bound, failed, n, k) == RoundCalls(states, rounds, bound, failed, n, k)
    decreases k
  {
    if k > 0 {
      RoundCallsLonger(states, ms, rounds, bound, failed, n, k - 1);
    }
  }

  /** The rounds leave alone what is not below bound, and move no deadline. */
  lemma {:induction false} RoundsKeep(states: seq<seq<Module>>, rounds: seq<Round>, bound: nat, failed: nat, n: nat)
    requires Rounds(states, rounds, bound, failed, n)
    ensures var first, last := states[0], states[|states| - 1];
      && DeadlinesKept(first, last)
      && (forall i :: 0 <= i < n && (i >= bound || i == failed) ==> last[i] == first[i])
    decreases |states|
  {
    if |states| > 1 {
      var k := |states| - 1;
      forall j | 0 <= j < k - 1 ensures GoesThrough(states[..k], rounds, bound, failed, j) {
        assert GoesThrough(states, rounds, bound, failed, j);
      }
      RoundsKeep(states[..k], rounds, bound, failed, n);
      assert GoesThrough(states, rounds, bound, failed, k - 1);
      assert states[k] == AfterRound(states[k - 1], rounds[k - 1], false, bound, failed);
    }
  }

  ghost predicate NoneWrong(calls: seq<Call>) {
    forall m: nat :: PhaseOf(calls, m) != Wrong
  }

  lemma CleanedIsRight(calls: seq<Call>, was: seq<bool>, lo: nat, bound: nat, failed: nat, fp: Phase)
    requires bound <= |was| && CleanedTo(calls, was, lo, bound, failed, fp) && fp != Wrong
    ensures NoneWrong(calls)
  {
    forall m: nat ensures PhaseOf(calls, m) != Wrong {
      assert PhaseOf(calls, m) == Final(was, lo, bound, failed, fp, m);
    }
  }

  lemma StartedIsRight(ms: seq<Module>, calls: seq<Call>, was: seq<bool>, bound: nat, failed: nat, fp: Phase)
    requires Started(ms, calls, was, bound, failed, fp) && fp != Wrong
    ensures NoneWrong(calls)
  {
    forall m: nat ensures PhaseOf(calls, m) != Wrong {
      assert PhaseOf(calls, m) == Expected(ms, was, bound, failed, fp, m);
    }
  }

  // ---------------------------------------------------------------- the application

  datatype Event =
    | Begin(start: Start, rounds: seq<Round>, pidWritten: bool)
    | SuspendAsked(i: nat, duration: nat)
    | StopRequested
    | Loop(r: Round)

  datatype Code = Success | NotInited | AlreadyInited | TimedOut | InitError | PidFileError

  /** The application as a value. */
  datatype Snapshot = Snapshot(modules: seq<Module>, calls: seq<Call>, timeout: bool, stopping: bool, stopped: bool, initialized: bool)

  /** A start: nothing happens to an application that runs or has timed out already; it starts every enabled
      module, in order, or undoes what it has started; only with a pid file does it tell them and run. */
  ghost predicate Begun(s: Snapshot, start: Start, rounds: seq<Round>, pidWritten: bool, t: Snapshot) {
    var n := |s.modules|;
    if s.initialized || s.timeout then t == s
    else if GoodBelow(s.modules, start, n) && !start.firesAtEnd then
      && t.initialized == pidWritten && SameButActived(s.modules, t.modules)
      && (!pidWritten ==> t.calls == StartCalls(s.modules, Init, start.result, n))
      && (pidWritten ==> t.calls == StartCalls(s.modules, Init, start.result, n) + StartCalls(s.modules, What.Ready, NoResult, n))
    else
      && !t.initialized && t.stopping
      && exists bound: nat, failed: nat, states :: RolledBack(s.modules, t.modules, t.calls, start, rounds, bound, failed, states)
  }

  /** A round of the loop: a stopping application stops those of its modules that do not wait, or tells all of
      them that the time is up, and once none is enabled cleans them all up, last one first, and is over. */
  ghost predicate Looped(s: Snapshot, r: Round, t: Snapshot) {
    var n, late := |s.modules|, s.timeout || r.fires;
    if !s.initialized then t == s
    else if !s.stopping then t == s.(timeout := late)
    else
      && |t.modules| == n && t.timeout == late && t.stopping
      && (t.stopped <==> forall i :: 0 <= i < n ==> !t.modules[i].enabled) && (t.initialized <==> !t.stopped)
      && (late ==> t.stopped) && (!late ==> t.modules == AfterRound(s.modules, r, false, n, n))
      && t.calls == s.calls + (if late then TimeoutCalls(s.modules, n, n) else StopCalls(s.modules, r, false, n, n)) +
           (if t.stopped then Cleanups(0, n, n) else [])
  }

  /** What each event does. */
  ghost predicate Does(s: Snapshot, ev: Event, t: Snapshot) {
    match ev
    case Begin(start, rounds, pidWritten) => Begun(s, start, rounds, pidWritten, t)
    case SuspendAsked(i, duration) =>
      t == if i < |s.modules|
           then s.(modules := s.modules[i := s.modules[i].(suspend := s.modules[i].suspend.(asks := true, duration := duration))])
           else s
    case StopRequested => t == s.(stopping := true)
    case Loop(r) => Looped(s, r, t)
  }

  class Application {
    var modules: seq<Module>
    var calls: seq<Call>
    var timeout: bool
    var stopping: bool
    var stopped: bool
    var initialized: bool
    ghost var was: seq<bool>

    /** While the application runs, its modules are started or stopped for good. */
    ghost predicate Valid()
      reads this
    {
      && NoneWrong(calls)
      && (initialized ==> !stopped && Started(modules, calls, was, |modules|, |modules|, Untouched))
    }

    ghost function View(): Snapshot
      reads this
    {
      Snapshot(modules, calls, timeout, stopping, stopped, initialized)
    }

    constructor (modules: seq<Module>)
      ensures Valid() && !initialized && this.modules == modules
    {
      this.modules, calls, was := modules, [], [];
      timeout, stopping, stopped, initialized := false, false, false, false;
    }

    method Disable(i: nat)
      requires i < |modules|
      modifies `modules
      ensures modules == old(modules)[i := old(modules)[i].(enabled := false, actived := false)]
    {
      modules := modules[i := modules[i].(enabled := false, actived := false)];
    }

    /** Delays the stop of a module while its callback asks for it, for a limited time. */
    method SuspendStop(i: nat, duration: nat)
      requires Valid()
      modifies `modules
      ensures Valid() && DeadlinesKept(old(modules), modules)
      ensures modules == if i < |old(modules)|
        then old(modules)[i := old(modules)[i].(suspend := old(modules)[i].suspend.(asks := true, duration := duration))] else old(modules)
    {
      if i < |modules| {
        modules := modules[i := modules[i].(suspend := modules[i].suspend.(asks := true, duration := duration))];
        if initialized {
          assert forall m: nat :: PhaseOf(calls, m) == Expected(old(modules), was, |modules|, |modules|, Untouched, m);
        }
      }
    }

    /** Whether a module is still waited for: only if it asks for it, and before its deadline, which
        is counted from the first time it is asked. */
    method CheckSuspendStop(i: nat, now: Time, wants: bool) returns (held: bool)
      requires i < |modules|
      modifies `modules
      ensures |modules| == |old(modules)| && forall k :: 0 <= k < |modules| && k != i ==> modules[k] == old(modules)[k]
      ensures var s := old(modules)[i].suspend;
        && (held <==> s.asks && wants && now < if s.counting then s.deadline else now + s.duration)
        && modules[i] == old(modules)[i].(suspend :=
             if s.asks then Suspend.Suspend(held, true, if s.counting then s.deadline else now + s.duration, s.duration) else s)
    {
      var s := modules[i].suspend;
      if !s.asks {
        assert modules[i := modules[i]] == modules;
        return false;
      }
      if !s.counting {
        s := s.(deadline := now + s.duration, counting := true);
      }
      held := true;
      if now >= s.deadline {
        s := s.(asks := false);
        held := false;
      } else if !wants {
        s := s.(asks := false);
        held := false;
      }
      modules := modules[i := modules[i].(suspend := s)];
    }

    // -------------------------------------------------------------- stopping

    /** Stops one module, unless it asks to wait and there is no timeout. */
    method StopModule(i: nat, r: Round, ghost bound: nat, ghost failed: nat, ghost fp: Phase)
      requires i < bound && i != failed && Started(modules, calls, was, bound, failed, fp) && modules[i].enabled
      modifies `modules, `calls
      ensures Started(modules, calls, was, bound, failed, fp)
      ensures |modules| == |old(modules)| && forall k :: 0 <= k < |modules| && k != i ==> modules[k] == old(modules)[k]
      ensures modules[i] == AskedToStop(old(modules)[i], r, timeout, i)
      ensures calls == old(calls) + if timeout || !Waits(old(modules)[i], r, i) then [Call(Stop, i, r.result(i))] else []
    {
      var held := CheckSuspendStop(i, r.now(i), r.wants(i));
      if held && !timeout {
        assert forall m: nat :: PhaseOf(calls, m) == Expected(old(modules), was, bound, failed, fp, m);
        return;
      }
      var res := r.result(i);
      calls := calls + [Call(Stop, i, res)];
      if res <= 0 {
        Disable(i);
      }
      StartedStep(old(modules), modules, old(calls), was, bound, failed, fp, Call(Stop, i, res));
    }

    /** One round of stopping the modules below bound, but for a failed one. */
    method StopModules(bound: nat, failed: nat, ghost fp: Phase, r: Round) returns (more: bool)
      requires bound <= |modules| && Started(modules, calls, was, bound, failed, fp)
      modifies `modules, `calls
      ensures Started(modules, calls, was, bound, failed, fp) && |modules| == |old(modules)|
      ensures calls == old(calls) + StopCalls(old(modules), r, timeout, bound, failed)
      ensures more <==> !AllStopped(modules, bound, failed)
      ensures modules == AfterRound(old(modules), r, timeout, bound, failed)
    {
      hide Started, AskedToStop;
      more := false;
      for i := 0 to bound
        invariant Started(modules, calls, was, bound, failed, fp) && |modules| == |old(modules)|
        invariant calls == old(calls) + StopCalls(old(modules), r, timeout, i, failed)
        invariant more <==> !AllStopped(modules, i, failed)
        invariant modules == AfterRound(old(modules), r, timeout, i, failed)
      {
        StopsUnlessWaiting(old(modules), r, timeout, i);
        if i != failed && modules[i].enabled {
          ghost var before := modules;
          StopModule(i, r, bound, failed, fp);
          assert AllStopped(modules, i, failed) <==> AllStopped(before, i, failed);
          if modules[i].enabled {
            more := true;
          }
        }
      }
    }

    /** Gives up waiting: the modules still enabled are told of the timeout. */
    method TimeoutModules(bound: nat, failed: nat, ghost fp: Phase)
      requires Started(modules, calls, was, bound, failed, fp)
      modifies `modules, `calls
      ensures Started(modules, calls, was, bound, failed, fp) && |modules| == |old(modules)| && AllStopped(modules, bound, failed)
      ensures forall i :: 0 <= i < |modules| && (i >= bound || i == failed) ==> modules[i] == old(modules)[i]
      ensures forall i :: 0 <= i < |modules| ==> modules[i].suspend == old(modules)[i].suspend
      ensures calls == old(calls) + TimeoutCalls(old(modules), bound, failed)
    {
      for i := 0 to bound
        invariant Started(modules, calls, was, bound, failed, fp) && |modules| == |old(modules)| && AllStopped(modules, i, failed)
        invariant forall k :: 0 <= k < |modules| && (k >= i || k == failed) ==> modules[k] == old(modules)[k]
        invariant forall k :: 0 <= k < |modules| ==> modules[k].suspend == old(modules)[k].suspend
        invariant calls == old(calls) + TimeoutCalls(old(modules), i, failed)
      {
        if i != failed && modules[i].enabled {
          ghost var before := modules;
          calls := calls + [Call(Timeout, i, 0)];
          Disable(i);
          StartedStep(before, modules, calls[..|calls| - 1], was, bound, failed, fp, Call(Timeout, i, 0));
        }
      }
    }

    /** Cleans up the modules below bound, last one first. */
    method CleanupModules(bound: nat, failed: nat, ghost fp: Phase)
      requires bound <= |was| && CleanedTo(calls, was, bound, bound, failed, fp)
      modifies `calls
      ensures CleanedTo(calls, was, 0, bound, failed, fp)
      ensures calls == old(calls) + Cleanups(0, bound, failed)
    {
      var k: nat := bound;
      while k > 0
        invariant k <= bound && CleanedTo(calls, was, k, bound, failed, fp)
        invariant calls == old(calls) + Cleanups(k, bound, failed)
      {
        k := k - 1;
        if k != failed {
          CleanupStep(calls, was, k, bound, failed, fp);
          calls := calls + [Call(Cleanup, k, 0)];
        } else {
          assert forall m: nat :: PhaseOf(calls, m) == Final(was, k + 1, bound, failed, fp, m);
        }
      }
    }

    // -------------------------------------------------------------- starting

    /** Undoes a failed start: stops what was started until all is stopped or the timeout fires,
        which it does after the given rounds at the latest; then cleans up, last one first. */
    method CleanupAfterFailedInit(bound: nat, failed: nat, rounds: seq<Round>) returns (ghost states: seq<seq<Module>>)
      requires failed <= |modules| && bound <= |modules|
      requires Started(modules, calls, was, bound, failed, if failed < |modules| then InitFailed else Untouched)
      modifies this
      ensures was == old(was) && initialized == old(initialized) && DeadlinesKept(old(modules), modules) && |modules| == |was|
      ensures CleanedTo(calls, was, 0, bound, failed, if failed < |modules| then FailedCleaned else Untouched)
      ensures AllStopped(modules, bound, failed) && stopping && stopped == old(stopped)
      ensures forall i :: 0 <= i < |modules| && (i >= bound || i == failed) ==> modules[i] == old(modules)[i]
      ensures Rounds(states, rounds, bound, failed, |modules|) && states[0] == old(modules)
      ensures RoundsEnd(old(timeout), states, rounds, bound, failed)
      ensures timeout <==> EndsInTimeout(old(timeout), states, rounds, bound, failed)
      ensures calls == old(calls) + UndoCalls(old(timeout), states, rounds, bound, failed, |modules|)
    {
      hide Started, AllStopped, AfterRound, Rounds, RoundCalls, TimeoutCalls, FailedPhase, DeadlinesKept, PhaseOf, CleanedTo, Remains;
      hide EndsInTimeout, StillFailing, Cleanups, RoundsEnd, StopCalls, GoesThrough, UndoCalls;
      stopping := true;
      var needStop;
      needStop, states := RollBack(bound, failed, rounds);
      RoundsSize(states, rounds, bound, failed, |modules|);
      assert needStop ==> failed < |modules|;
      SameLength(modules, calls, was, bound, failed, FailedPhase(|modules|, failed, needStop));
      CleanupFailed(bound, failed, needStop);
      ghost var fp := if failed < |modules| then FailedCleaned else Untouched;
      ReadyToClean(modules, calls, was, bound, failed, fp);
      CleanupModules(bound, failed, fp);
      UndoCallsAfter(old(calls), old(timeout), states, rounds, bound, failed, |modules|);
    }

    /** The last calls to a module whose init failed. */
    method CleanupFailed(bound: nat, failed: nat, needStop: bool)
      requires Started(modules, calls, was, bound, failed, FailedPhase(|modules|, failed, needStop))
      requires needStop ==> timeout && failed < |modules|
      modifies `calls
      ensures Started(modules, calls, was, bound, failed, if failed < |modules| then FailedCleaned else Untouched)
      ensures calls == old(calls) + (if needStop then [Call(InitFailedTimeout, failed, 0)] else []) +
        (if failed < |modules| then [Call(InitFailedCleanup, failed, 0)] else [])
    {
      hide Started;
      if failed < |modules| {
        if needStop && timeout {
          FailedStep(modules, calls, was, bound, InitFailed, Call(InitFailedTimeout, failed, 0));
          calls := calls + [Call(InitFailedTimeout, failed, 0)];
        }
        FailedStep(modules, calls, was, bound, FailedDone, Call(InitFailedCleanup, failed, 0));
        calls := calls + [Call(InitFailedCleanup, failed, 0)];
      }
    }

    method RollBackRound(bound: nat, failed: nat, need: bool, r: Round) returns (needStop: bool, more: bool)
      requires bound <= |modules| && (need ==> failed < |modules|) && !timeout
      requires Started(modules, calls, was, bound, failed, FailedPhase(|modules|, failed, need))
      modifies `modules, `calls
      ensures modules == AfterRound(old(modules), r, false, bound, failed) && (needStop <==> need && r.failedStop > 0)
      ensures Started(modules, calls, was, bound, failed, FailedPhase(|modules|, failed, needStop))
      ensures !more <==> AllStopped(modules, bound, failed) && !needStop
      ensures calls == old(calls) + StopCalls(old(modules), r, false, bound, failed) +
        if need then [Call(InitFailedStop, failed, r.failedStop)] else []
    {
      hide Started, AllStopped, AskedToStop;
      needStop := need;
      more := StopModules(bound, failed, FailedPhase(|modules|, failed, need), r);
      if needStop {
        var c := Call(InitFailedStop, failed, r.failedStop);
        FailedStep(modules, calls, was, bound, InitFailed, c);
        calls := calls + [c];
        if c.result <= 0 {
          needStop := false;
        } else {
          more := true;
        }
      }
    }

    /** The rounds of stopping after a failed start, and the timeout that may end them. */
    method RollBack(bound: nat, failed: nat, rounds: seq<Round>) returns (needStop: bool, ghost states: seq<seq<Module>>)
      requires failed <= |modules| && bound <= |modules|
      requires Started(modules, calls, was, bound, failed, if failed < |modules| then InitFailed else Untouched)
      modifies `modules, `calls, `timeout
      ensures Started(modules, calls, was, bound, failed, FailedPhase(|modules|, failed, needStop))
      ensures AllStopped(modules, bound, failed) && DeadlinesKept(old(modules), modules)
      ensures forall i :: 0 <= i < |modules| && (i >= bound || i == failed) ==> modules[i] == old(modules)[i]
      ensures Rounds(states, rounds, bound, failed, |modules|) && states[0] == old(modules)
      ensures RoundsEnd(old(timeout), states, rounds, bound, failed)
      ensures timeout <==> EndsInTimeout(old(timeout), states, rounds, bound, failed)
      ensures needStop <==> StillFailing(rounds, failed, |modules|, |states| - 1)
      ensures needStop ==> timeout && failed < |modules|
      ensures calls == old(calls) + RoundCalls(states, rounds, bound, failed, |modules|, |states| - 1) +
        if timeout then TimeoutCalls(states[|states| - 1], bound, failed) else []
    {
      hide Started, AllStopped, AfterRound, Rounds, RoundCalls, StopCalls, TimeoutCalls, FailedPhase, DeadlinesKept, PhaseOf;
      ghost var n := |modules|;
      needStop, states := failed < |modules|, [modules];
      RoundsStart(modules, rounds, bound, failed);
      FailedPhaseAtFirst(n, failed);
      var k := 0;
      timeout := timeout || rounds == [];
      while !timeout
        invariant 0 <= k <= |rounds| && (k == |rounds| ==> timeout) && |modules| == n
        invariant Rounds(states, rounds, bound, failed, n) && |states| == k + 1 && states[0] == old(modules) && states[k] == modules
        invariant forall j :: 0 <= j < |states| ==> |states[j]| == n
        invariant needStop <==> StillFailing(rounds, failed, n, k)
        invariant Started(modules, calls, was, bound, failed, FailedPhase(n, failed, needStop))
        invariant calls == old(calls) + RoundCalls(states, rounds, bound, failed, n, k)
        invariant k == 0 ==> (timeout <==> old(timeout) || rounds == [])
        invariant k > 0 ==> !old(timeout) && Remains(modules, rounds, bound, failed, k)
        invariant k > 0 ==> (timeout <==> rounds[k - 1].fires || k == |rounds|)
        decreases |rounds| - k
      {
        var more;
        needStop, more := RollBackRound(bound, failed, needStop, rounds[k]);
        RoundsMore(states, modules, rounds, bound, failed, n);
        RoundCallsMore(states, modules, rounds, bound, failed, n);
        states := states + [modules];
        k := k + 1;
        if !more {
          break;
        }
        timeout := rounds[k - 1].fires || k == |rounds|;
      }
      RoundsKeep(states, rounds, bound, failed, n);
      ghost var before := modules;
      if timeout {
        TimeoutModules(bound, failed, FailedPhase(|modules|, failed, needStop));
        SameSuspends(old(modules), before, modules);
      }
    }

    /** Starts the modules in order; stops at the first one that fails, or at the timeout. */
    method InitModules(start: Start) returns (ok: bool, bound: nat, failed: nat)
      requires calls == [] && was == Enabled(modules) && !timeout
      modifies `modules, `calls, `timeout
      ensures DeadlinesKept(old(modules), modules) && bound <= |modules| && failed <= |modules|
      ensures ok <==> GoodBelow(old(modules), start, |modules|) && !start.firesAtEnd
      ensures !ok ==> BreaksAt(old(modules), start, bound, failed)
      ensures Started(modules, calls, was, bound, failed, if failed < |modules| then InitFailed else Untouched)
      ensures ok ==> bound == failed == |modules|
      ensures failed < |modules| ==> bound == failed
      ensures SameButActived(old(modules), modules)
      ensures timeout <==> !ok && failed == |modules|
      ensures calls == StartCalls(old(modules), Init, start.result, if failed < |modules| then failed + 1 else bound)
    {
      hide Expected, PhaseOf, Started, GoodBelow;
      NoneGood(modules, start);
      var i: nat := 0;
      ok, failed := true, |modules|;
      NoneStarted(modules);
      while ok && i < |modules|
        invariant |modules| == |old(modules)| && 0 <= i <= |modules| && ok && failed == |modules|
        invariant Started(modules, calls, was, i, |modules|, Untouched)
        invariant SameButActived(old(modules), modules) && calls == StartCalls(old(modules), Init, start.result, i)
        invariant DeadlinesKept(old(modules), modules) && GoodBelow(old(modules), start, i) && !timeout
        decreases |modules| - i
      {
        ghost var before, past := modules, calls;
        StartedFlags(modules, calls, was, i);
        GoodMore(old(modules), start, i);
        if modules[i].enabled {
          var c := Call(Init, i, start.result(i));
          calls := calls + [c];
          if c.result < 0 {
            failed, ok := i, false;
            InitStep(before, modules, past, was, i, c);
            break;
          }
          modules := modules[i := modules[i].(actived := true)];
          InitStep(before, modules, past, was, i, c);
          timeout := timeout || start.fires(i);
          if timeout {
            ok := false;
            break;
          }
        } else {
          SkipStep(modules, calls, was, i);
        }
        i := i + 1;
      }
      if ok {
        timeout := timeout || start.firesAtEnd;
        if timeout {
          ok := false;
        }
      }
      bound := i;
      if failed == |modules| && i < |modules| && modules[i].actived {
        bound := i + 1;
      }
    }

    /** Rolls back a start that failed. */
    method UndoStart(start: Start, rounds: seq<Round>, bound: nat, failed: nat, ghost first: seq<Module>)
      requires |first| == |modules| && failed <= |modules| && bound <= |modules| && was == Enabled(first)
      requires SameButActived(first, modules) && BreaksAt(first, start, bound, failed) && (timeout <==> failed == |modules|)
      requires Started(modules, calls, was, bound, failed, if failed < |modules| then InitFailed else Untouched)
      requires calls == StartCalls(first, Init, start.result, if failed < |modules| then failed + 1 else bound)
      requires DeadlinesKept(first, modules)
      modifies this
      ensures was == old(was) && initialized == old(initialized) && stopping && stopped == old(stopped)
      ensures DeadlinesKept(first, modules) && NoneWrong(calls)
      ensures exists states :: RolledBack(first, modules, calls, start, rounds, bound, failed, states)
    {
      hide Started, BreaksAt, Rounds, RoundsEnd, EndsInTimeout, UndoCalls, CleanedTo, StartCalls, PhaseOf, AllStopped;
      ghost var before := modules;
      ghost var states := CleanupAfterFailedInit(bound, failed, rounds);
      CleanedIsRight(calls, was, 0, bound, failed, if failed < |modules| then FailedCleaned else Untouched);
      assert RolledBack(first, modules, calls, start, rounds, bound, failed, states);
    }

    /** Starts the application, or rolls back and leaves every started module stopped and cleaned
        up. After an early timeout no module is touched at all. When only the pid file cannot be
        written, the modules stay started. */
    method StartUp(start: Start, rounds: seq<Round>, pidWritten: bool) returns (code: Code)
      requires Valid()
      modifies this
      ensures Valid()
      ensures code != NotInited && (old(initialized) <==> code == AlreadyInited)
      ensures DeadlinesKept(old(modules), modules)
      ensures old(initialized) ==> calls == old(calls) && modules == old(modules) && initialized
      ensures code == TimedOut <==> !old(initialized) && old(timeout)
      ensures code == TimedOut ==> calls == old(calls) && modules == old(modules) && !initialized
      ensures !old(initialized) && !old(timeout) ==>
        && (code == InitError <==> !GoodBelow(old(modules), start, |old(modules)|) || start.firesAtEnd)
        && (code == PidFileError <==> GoodBelow(old(modules), start, |old(modules)|) && !start.firesAtEnd && !pidWritten)
        && was == Enabled(old(modules)) && (initialized <==> code == Success)
      ensures code == PidFileError || code == Success ==> Started(modules, calls, was, |modules|, |modules|, Untouched)
      ensures code == PidFileError || code == Success ==> SameButActived(old(modules), modules)
      ensures code == PidFileError ==> calls == StartCalls(old(modules), Init, start.result, |old(modules)|)
      ensures code == Success ==>
        calls == StartCalls(old(modules), Init, start.result, |old(modules)|) + StartCalls(old(modules), What.Ready, NoResult, |old(modules)|)
      ensures code == Success ==> !stopped && !stopping && !timeout
      ensures code != Success && code != InitError ==> stopping == old(stopping) && stopped == old(stopped) && timeout == old(timeout)
      ensures code == InitError ==> stopping && stopped == old(stopped)
      ensures code == InitError ==> exists bound: nat, failed: nat, states :: RolledBack(old(modules), modules, calls, start, rounds, bound, failed, states)
    {
      hide Started, BreaksAt, RolledBack, StartCalls, PhaseOf;
      if initialized {
        return AlreadyInited;
      }
      if timeout {
        return TimedOut;
      }
      calls, was := [], Enabled(modules);
      var ok, bound, failed := InitModules(start);
      if !ok {
        UndoStart(start, rounds, bound, failed, old(modules));
        return InitError;
      }
      StartedIsRight(modules, calls, was, bound, failed, Untouched);
      if !pidWritten {
        return PidFileError;
      }
      stopped, stopping, initialized := false, false, true;
      TellReady();
      StartCallsSame(old(modules), modules, What.Ready, NoResult, |modules|);
      return Success;
    }

    method TellReady()
      requires Started(modules, calls, was, |modules|, |modules|, Untouched)
      modifies `calls
      ensures Started(modules, calls, was, |modules|, |modules|, Untouched) && NoneWrong(calls)
      ensures calls == old(calls) + StartCalls(modules, What.Ready, NoResult, |modules|)
    {
      for i := 0 to |modules|
        invariant Started(modules, calls, was, |modules|, |modules|, Untouched)
        invariant calls == old(calls) + StartCalls(modules, What.Ready, NoResult, i)
      {
        if modules[i].enabled {
          StartedStep(modules, modules, calls, was, |modules|, |modules|, Untouched, Call(Ready, i, 0));
          calls := calls + [Call(Ready, i, 0)];
        }
      }
      StartedIsRight(modules, calls, was, |modules|, |modules|, Untouched);
    }

    // -------------------------------------------------------------- running

    method RequestStop()
      modifies `stopping
      ensures stopping
    {
      stopping := true;
    }

    /** One round of the event loop. While the application is stopping it stops modules, or gives up
        on them at the timeout; once none is left it cleans up, last module first, and is over. */
    method RunInner(r: Round) returns (code: Code)
      requires Valid()
      modifies this
      ensures Valid() && was == old(was) && |modules| == |old(modules)| && stopping == old(stopping)
      ensures code == if old(initialized) then Success else NotInited
      ensures !old(initialized) ==> calls == old(calls) && modules == old(modules) && !initialized && timeout == old(timeout) && stopped == old(stopped)
      ensures old(initialized) ==> timeout == (old(timeout) || r.fires)
      ensures old(initialized) && !stopping ==> initialized && !stopped && calls == old(calls) && modules == old(modules)
      ensures old(initialized) && stopping ==>
        && (stopped <==> AllStopped(modules, |modules|, |modules|))
        && (initialized <==> !stopped)
        && (!initialized ==> |was| == |modules| && CleanedTo(calls, was, 0, |modules|, |modules|, Untouched))
        && (timeout ==> stopped && forall i :: 0 <= i < |modules| ==> modules[i].suspend == old(modules)[i].suspend)
        && (!timeout ==> modules == AfterRound(old(modules), r, false, |modules|, |modules|))
        && calls == old(calls) +
             (if timeout then TimeoutCalls(old(modules), |modules|, |modules|) else StopCalls(old(modules), r, false, |modules|, |modules|)) +
             (if stopped then Cleanups(0, |modules|, |modules|) else [])
      ensures DeadlinesKept(old(modules), modules)
    {
      hide Started, CleanedTo;
      if !initialized {
        return NotInited;
      }
      timeout := timeout || r.fires;
      if stopping {
        StopRound(r);
      }
      if stopped && initialized {
        SameLength(modules, calls, was, |modules|, |modules|, Untouched);
        ReadyToClean(modules, calls, was, |modules|, |modules|, Untouched);
        CleanupModules(|modules|, |modules|, Untouched);
        CleanedIsRight(calls, was, 0, |modules|, |modules|, Untouched);
        initialized := false;
      }
      return Success;
    }

    method StopRound(r: Round)
      requires Started(modules, calls, was, |modules|, |modules|, Untouched)
      modifies `modules, `calls, `stopped
      ensures |modules| == |old(modules)| && Started(modules, calls, was, |modules|, |modules|, Untouched) && NoneWrong(calls)
      ensures stopped <==> AllStopped(modules, |modules|, |modules|)
      ensures timeout ==> stopped && forall i :: 0 <= i < |modules| ==> modules[i].suspend == old(modules)[i].suspend
      ensures !timeout ==> modules == AfterRound(old(modules), r, false, |modules|, |modules|)
      ensures calls == old(calls) +
        if timeout then TimeoutCalls(old(modules), |modules|, |modules|) else StopCalls(old(modules), r, false, |modules|, |modules|)
      ensures DeadlinesKept(old(modules), modules)
    {
      hide Started;
      stopped := true;
      if timeout {
        TimeoutModules(|modules|, |modules|, Untouched);
      } else {
        var more := StopModules(|modules|, |modules|, Untouched, r);
        if more {
          stopped := false;
        }
      }
      StartedIsRight(modules, calls, was, |modules|, |modules|, Untouched);
    }

    // -------------------------------------------------------------- whole runs

    method Step(ev: Event)
      requires Valid()
      modifies this
      ensures Valid() && DeadlinesKept(old(modules), modules) && Does(old(View()), ev, View())
    {
      hide Started, RolledBack, GoodBelow, StartCalls, StopCalls, TimeoutCalls, Cleanups, CleanedTo;
      match ev
      case Begin(start, rounds, pidWritten) =>
        var _ := StartUp(start, rounds, pidWritten);
      case SuspendAsked(i, duration) =>
        SuspendStop(i, duration);
      case StopRequested =>
        RequestStop();
      case Loop(r) =>
        var _ := RunInner(r);
    }

    /** In every run each event does what it should, no module sees a wrong call, and no deadline moves. */
    method Run(events: seq<Event>) returns (ghost trace: seq<Snapshot>)
      requires Valid()
      modifies this
      ensures Valid() && DeadlinesKept(old(modules), modules)
      ensures |trace| == |events| + 1 && trace[0] == old(View()) && trace[|events|] == View()
      ensures forall i :: 0 <= i < |events| ==> Does(trace[i], events[i], trace[i + 1])
    {
      hide Started, Does;
      trace := [View()];
      for i := 0 to |events|
        invariant Valid() && DeadlinesKept(old(modules), modules)
        invariant |trace| == i + 1 && trace[0] == old(View()) && trace[i] == View()
        invariant forall k :: 0 <= k < i ==> Does(trace[k], events[k], trace[k + 1])
      {
        Step(events[i]);
        trace := trace + [View()];
      }
    }
  }
}
