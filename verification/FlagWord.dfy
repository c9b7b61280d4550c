/** The application's flag word, changed by concurrent set_flag calls with a weak
    compare-and-swap loop. Each atomic access of each thread is one step. */
module FlagWord {

  /** A 64-bit word, bit by bit: or-ing in or masking out 1 << f sets the bit at f. */
  type Word = w: seq<bool> | |w| == 64 witness seq(64, _ => false)
  type Index = f: nat | f < 64
  type Thread = nat

  const FLAG_MAX := 10

  function With(w: Word, f: Index, v: bool): Word {
    w[f := v]
  }

  /** Where a thread is in set_flag: outside, between two atomic accesses holding the value it
      last read, or returned. done counts its calls that took effect. */
  datatype Pc =
    | Outside
    | Trying(f: Index, v: bool, seen: Word)
    | Returned(ret: bool)

  datatype Local = Local(pc: Pc, done: nat)

  /** A call at the moment it takes effect. */
  datatype Effect = Effect(t: Thread, f: Index, v: bool, ret: bool)

  datatype State = State(word: Word, locals: map<Thread, Local>, log: seq<Effect>)

  /** The scheduler picks a thread: to enter set_flag and load the word, to try the swap (which
      may fail for no reason), or to leave. */
  datatype Step =
    | Enter(t: Thread, f: int, v: bool)
    | Swap(t: Thread, spurious: bool)
    | Leave(t: Thread)

  function LocalOf(s: State, t: Thread): Local {
    if t in s.locals then s.locals[t] else Local(Outside, 0)
  }

  /** The thread has just read the word: it is finished when its flag already has the value. */
  function AfterRead(s: State, t: Thread, f: Index, v: bool): State {
    var l := LocalOf(s, t);
    if With(s.word, f, v) == s.word then
      s.(locals := s.locals[t := Local(Returned(v), l.done + 1)], log := s.log + [Effect(t, f, v, v)])
    else
      s.(locals := s.locals[t := Local(Trying(f, v, s.word), l.done)])
  }

  /** The swap succeeded: the flag had the other value. */
  function AfterSwap(s: State, t: Thread, f: Index, v: bool): State {
    var l := LocalOf(s, t);
    State(With(s.word, f, v), s.locals[t := Local(Returned(!v), l.done + 1)], s.log + [Effect(t, f, v, !v)])
  }

  function Next(s: State, a: Step): State {
    var l := LocalOf(s, a.t);
    match a
    case Enter(t, f, v) =>
      if !l.pc.Outside? then s
      else if f < 0 || f >= FLAG_MAX then s.(locals := s.locals[t := l.(pc := Returned(false))])
      else AfterRead(s, t, f, v)
    case Swap(t, spurious) =>
      if !l.pc.Trying? then s
      else if s.word == l.pc.seen && !spurious then AfterSwap(s, t, l.pc.f, l.pc.v)
      else AfterRead(s, t, l.pc.f, l.pc.v)
    case Leave(t) =>
      if l.pc.Returned? then s.(locals := s.locals[t := l.(pc := Outside)]) else s
  }

  function Run(s: State, steps: seq<Step>): State {
    if steps == [] then s else Next(Run(s, steps[..|steps| - 1]), steps[|steps| - 1])
  }

  // ---------------------------------------------------------------- one call at a time

  function Replay(w: Word, log: seq<Effect>): Word {
    if log == [] then w
    else With(Replay(w, log[..|log| - 1]), log[|log| - 1].f, log[|log| - 1].v)
  }

  function CountOf(log: seq<Effect>, t: Thread): nat {
    if log == [] then 0
    else CountOf(log[..|log| - 1], t) + if log[|log| - 1].t == t then 1 else 0
  }

  /** Each logged call returned what its flag was just before it took effect. */
  ghost predicate Honest(w: Word, log: seq<Effect>) {
    forall i :: 0 <= i < |log| ==> log[i].ret == Replay(w, log[..i])[log[i].f]
  }

  /** A thread that waits to swap wants a change of the word it has seen; a thread that has
      returned from a call that took effect returned what the log says. */
  ghost predicate LocalOk(l: Local, t: Thread, log: seq<Effect>) {
    && l.done == CountOf(log, t)
    && (l.pc.Trying? ==> l.pc.seen[l.pc.f] != l.pc.v)
  }

  ghost predicate Inv(w: Word, s: State) {
    && s.word == Replay(w, s.log)
    && Honest(w, s.log)
    && (forall t :: LocalOk(LocalOf(s, t), t, s.log))
  }

  lemma HonestAppend(w: Word, log: seq<Effect>, e: Effect)
    requires Honest(w, log) && e.ret == Replay(w, log)[e.f]
    ensures Honest(w, log + [e])
    ensures Replay(w, log + [e]) == With(Replay(w, log), e.f, e.v)
    ensures forall t :: CountOf(log + [e], t) == CountOf(log, t) + if e.t == t then 1 else 0
  {
    assert (log + [e])[..|log|] == log;
    forall i | 0 <= i < |log + [e]| ensures (log + [e])[i].ret == Replay(w, (log + [e])[..i])[(log + [e])[i].f] {
      assert (log + [e])[..i] == log[..i];
      if i == |log| {
        assert log[..i] == log;
      }
    }
  }

  lemma ReadKeeps(w: Word, s: State, t: Thread, f: Index, v: bool)
    requires Inv(w, s)
    ensures Inv(w, AfterRead(s, t, f, v))
  {
    if With(s.word, f, v) == s.word {
      HonestAppend(w, s.log, Effect(t, f, v, v));
    }
    var s' := AfterRead(s, t, f, v);
    forall u ensures LocalOk(LocalOf(s', u), u, s'.log) {
      assert LocalOk(LocalOf(s, u), u, s.log);
    }
  }

  lemma StepKeeps(w: Word, s: State, a: Step)
    requires Inv(w, s)
    ensures Inv(w, Next(s, a))
  {
    var l := LocalOf(s, a.t);
    assert LocalOk(l, a.t, s.log);
    match a
    case Enter(t, f, v) =>
      if l.pc.Outside? && 0 <= f < FLAG_MAX {
        ReadKeeps(w, s, t, f, v);
      } else {
        LocalOnly(w, s, t, l.(pc := Returned(false)));
      }
    case Swap(t, spurious) =>
      if l.pc.Trying? {
        if s.word == l.pc.seen && !spurious {
          SwapKeeps(w, s, t, l.pc.f, l.pc.v);
        } else {
          ReadKeeps(w, s, t, l.pc.f, l.pc.v);
        }
      }
    case Leave(t) => LocalOnly(w, s, t, l.(pc := Outside));
  }

  lemma LocalOnly(w: Word, s: State, t: Thread, l: Local)
    requires Inv(w, s) && l.done == LocalOf(s, t).done && !l.pc.Trying?
    ensures Inv(w, s.(locals := s.locals[t := l]))
  {
    var s' := s.(locals := s.locals[t := l]);
    forall u ensures LocalOk(LocalOf(s', u), u, s'.log) {
      assert LocalOk(LocalOf(s, u), u, s.log);
    }
  }

  lemma SwapKeeps(w: Word, s: State, t: Thread, f: Index, v: bool)
    requires Inv(w, s) && s.word[f] == !v
    ensures Inv(w, AfterSwap(s, t, f, v))
  {
    hide Honest, Replay, CountOf;
    HonestAppend(w, s.log, Effect(t, f, v, !v));
    var s' := AfterSwap(s, t, f, v);
    forall u ensures LocalOk(LocalOf(s', u), u, s'.log) {
      assert LocalOk(LocalOf(s, u), u, s.log);
    }
  }

  /** In every interleaving the word is what the calls give when applied one at a time in the order
      in which they took effect, no call is lost or applied twice, and each call returned its
      flag's value just before that point. */
  lemma {:induction false} EveryRunIsSerial(w: Word, steps: seq<Step>)
    ensures var s := Run(State(w, map[], []), steps);
      && s.word == Replay(w, s.log)
      && Honest(w, s.log)
      && (forall t :: LocalOf(s, t).done == CountOf(s.log, t))
    ensures Inv(w, Run(State(w, map[], []), steps))
    decreases |steps|
  {
    var s := Run(State(w, map[], []), steps);
    if steps != [] {
      EveryRunIsSerial(w, steps[..|steps| - 1]);
      StepKeeps(w, Run(State(w, map[], []), steps[..|steps| - 1]), steps[|steps| - 1]);
    }
    forall t ensures LocalOf(s, t).done == CountOf(s.log, t) {
      assert LocalOk(LocalOf(s, t), t, s.log);
    }
  }

  /** A call that returns from its swap or its read returns the logged value. */
  lemma ReturnIsLogged(s: State, a: Step)
    requires LocalOf(Next(s, a), a.t).pc.Returned? && !LocalOf(s, a.t).pc.Returned?
    requires a.Enter? ==> 0 <= a.f < FLAG_MAX
    ensures var s' := Next(s, a);
      && |s'.log| == |s.log| + 1 && s'.log[..|s.log|] == s.log
      && s'.log[|s.log|].t == a.t && s'.log[|s.log|].ret == LocalOf(s', a.t).pc.ret
      && (a.Enter? ==> s'.log[|s.log|].f == a.f && s'.log[|s.log|].v == a.v)
      && (a.Swap? ==> s'.log[|s.log|].f == LocalOf(s, a.t).pc.f && s'.log[|s.log|].v == LocalOf(s, a.t).pc.v)
  {
  }

  // ---------------------------------------------------------------- bit by bit

  /** Entry i of the log is the last one on bit g. */
  predicate LastOn(log: seq<Effect>, g: nat, i: nat) {
    i < |log| && log[i].f == g && forall j :: i < j < |log| ==> log[j].f != g
  }

  predicate NoneOn(log: seq<Effect>, g: nat) {
    forall j :: 0 <= j < |log| ==> log[j].f != g
  }

  /** A bit is what the last call on it wrote, or what it was at first. */
  ghost predicate BitIs(w: Word, log: seq<Effect>, g: Index, b: bool) {
    && (NoneOn(log, g) ==> b == w[g])
    && (forall i: nat :: LastOn(log, g, i) ==> b == log[i].v)
  }

  lemma {:induction false} ReplayedBit(w: Word, log: seq<Effect>, g: Index)
    ensures BitIs(w, log, g, Replay(w, log)[g])
    decreases |log|
  {
    if log != [] {
      var n := |log| - 1;
      ReplayedBit(w, log[..n], g);
      if log[n].f != g {
        assert NoneOn(log, g) ==> NoneOn(log[..n], g);
        forall i: nat | LastOn(log, g, i) ensures LastOn(log[..n], g, i) && log[..n][i] == log[i] {
        }
      } else {
        assert forall i: nat :: LastOn(log, g, i) ==> i == n;
      }
    }
  }

  /** In every interleaving each bit holds what the last call on it wrote, whatever other calls did to other
      bits, and each call returned what the last one before it on the same bit had written. */
  lemma BitsOfEveryRun(w: Word, steps: seq<Step>, g: Index)
    ensures var s := Run(State(w, map[], []), steps);
      && BitIs(w, s.log, g, s.word[g])
      && (forall k :: 0 <= k < |s.log| ==> BitIs(w, s.log[..k], s.log[k].f, s.log[k].ret))
  {
    var s := Run(State(w, map[], []), steps);
    EveryRunIsSerial(w, steps);
    ReplayedBit(w, s.log, g);
    forall k | 0 <= k < |s.log| ensures BitIs(w, s.log[..k], s.log[k].f, s.log[k].ret) {
      ReplayedBit(w, s.log[..k], s.log[k].f);
    }
  }

  /** A step changes at most one bit, the one its logged call is about and to the value that asks for; a step
      that logs nothing changes nothing, and a call for a flag that does not exist just returns false. */
  lemma OneBitPerStep(s: State, a: Step, g: Index)
    ensures var s' := Next(s, a);
      && (s'.log == s.log || (|s'.log| == |s.log| + 1 && s'.log[..|s.log|] == s.log))
      && (s'.log == s.log ==> s'.word == s.word)
      && (s'.log != s.log && s'.log[|s.log|].f == g ==> s'.word[g] == s'.log[|s.log|].v)
      && (s'.log != s.log && s'.log[|s.log|].f != g ==> s'.word[g] == s.word[g])
      && (a.Enter? && LocalOf(s, a.t).pc.Outside? && !(0 <= a.f < FLAG_MAX) ==> LocalOf(s', a.t).pc == Returned(false) && s'.log == s.log)
  {
  }

  /** A call that starts finds its work done already, or waits to swap the word it has read. */
  lemma EnterLooks(s: State, t: Thread, f: nat, v: bool)
    requires LocalOf(s, t).pc.Outside? && f < FLAG_MAX
    ensures var s' := Next(s, Enter(t, f, v));
      LocalOf(s', t).pc == if s.word[f] == v then Returned(v) else Trying(f, v, s.word)
  {
    assert s.word[f] == v ==> With(s.word, f, v) == s.word;
  }

  /** What an attempt comes to: it takes effect if the word is the one that was seen, finds its work done if
      somebody else has given the flag its value, and else looks again. */
  lemma SwapDecides(w: Word, s: State, t: Thread)
    requires Inv(w, s) && LocalOf(s, t).pc.Trying?
    ensures var pc, s' := LocalOf(s, t).pc, Next(s, Swap(t, false));
      && (s.word[pc.f] == pc.v ==> LocalOf(s', t).pc == Returned(pc.v) && s'.word == s.word)
      && (s.word == pc.seen ==> LocalOf(s', t).pc == Returned(!pc.v) && s'.word[pc.f] == pc.v)
      && (s.word[pc.f] != pc.v && s.word != pc.seen ==> LocalOf(s', t).pc == Trying(pc.f, pc.v, s.word) && s'.word == s.word)
  {
    assert LocalOk(LocalOf(s, t), t, s.log);
    var pc := LocalOf(s, t).pc;
    assert s.word[pc.f] == pc.v ==> With(s.word, pc.f, pc.v) == s.word;
  }

  /** Nobody waits for anybody: two attempts in a row, without a spurious failure, finish a call. */
  lemma AloneItReturns(w: Word, s: State, t: Thread)
    requires Inv(w, s) && LocalOf(s, t).pc.Trying?
    ensures LocalOf(Next(Next(s, Swap(t, false)), Swap(t, false)), t).pc.Returned?
  {
    var s' := Next(s, Swap(t, false));
    StepKeeps(w, s, Swap(t, false));
    SwapDecides(w, s, t);
    if LocalOf(s', t).pc.Trying? {
      SwapDecides(w, s', t);
    }
  }
}
