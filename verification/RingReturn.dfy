/** When the consumers return.  That all of them always do is false: the last announcement is
    made before end_time is set.  Here is the exact condition, read off any state after which
    nothing will be announced any more. */
module RingReturn {
  import opened Runs
  import opened Ring
  import opened RingInvariant
  import opened RingSystem
  import opened RingTheorems

  predicate HasAnnounced(pc: PPc) { pc.PEofUnlockCell? || pc.PEofUnlockW? || pc.PSetEnd? || pc.PDone? }

  /** end_time is set and every producer has made its last announcement. */
  predicate Settled(s: State) {
    s.mem.endTime && forall i :: 0 <= i < |s.prod| ==> HasAnnounced(s.prod[i])
  }

  /** The consumer inside the read lock has found its cell NULL and end_time not set, and no
      announcement is left for it. */
  predicate TooEarly(s: State) {
    (Reader(s).CWait? || Reader(s).CAsleep?) && s.mem.tokens.writing == 0
  }

  lemma ProducerStaysSettled(c: Config, s: State, i: nat, s': State)
    requires Inv(c, s) && Settled(s) && Next(c, s, Move(Producer(i))) == Some(s')
    ensures Settled(s') && (TooEarly(s') <==> TooEarly(s))
  {
    hide Core, KnowsP, KnowsC, Exclusive, Reader, Writer;
    ProducerExclusive(c, s, i, s');
    assert HasAnnounced(s.prod[i]);
  }

  lemma ConsumerTokens(c: Config, m: Memory, i: nat, pc: CPc)
    requires m.endTime && ActC(c, m, i, pc).DoneC?
    ensures var e := ActC(c, m, i, pc);
            && e.mem.endTime
            && (e.pc.CWait? ==> false)
            && (e.pc.CAsleep? ==> pc.CWait? && e.mem.tokens.writing == m.tokens.writing)
            && (pc.CAsleep? ==> m.tokens.writing > 0)
            && (pc.CWait? ==> e.pc.CAsleep?)
            && (!pc.CAsleep? ==> e.mem.tokens.writing == m.tokens.writing)
  {
  }

  lemma ConsumerStaysSettled(c: Config, s: State, i: nat, s': State)
    requires Inv(c, s) && Settled(s) && Next(c, s, Move(Consumer(i))) == Some(s')
    ensures Settled(s') && (TooEarly(s') <==> TooEarly(s))
  {
    assert !HoldsReadLock(s.cons[i]) ==> s.cons[i].CLockR? || s.cons[i].CDone?;
    assert HoldsReadLock(s.cons[i]) ==> Reader(s) == s.cons[i];
    assert s.cons[i].CLockR? ==> s.mem.locks.read.None?;
    assert s.mem.locks.read.None? ==> Reader(s) == CLockR;
    ConsumerExclusive(c, s, i, s');
    ConsumerTokens(c, s.mem, i, s.cons[i]);
    ProducersSleepOn(c, s, i, s');
    hide Inv, ActC, Next, Writer, Reader;
  }

  /** A broadcast of a consumer moves no producer that is past its last wait. */
  lemma ProducersSleepOn(c: Config, s: State, i: nat, s': State)
    requires Settled(s) && Next(c, s, Move(Consumer(i))) == Some(s')
    ensures s'.prod == s.prod && i < |s.cons| && s'.mem == ActC(c, s.mem, i, s.cons[i]).mem && ActC(c, s.mem, i, s.cons[i]).DoneC?
  {
    hide ActC;
  }

  lemma SpuriousWakes(c: Config, s: State, t: Thread, s': State)
    requires Inv(c, s) && Settled(s) && Next(c, s, Spurious(t)) == Some(s')
    ensures Settled(s') && !TooEarly(s')
  {
    hide Core, KnowsP, KnowsC;
    assert forall i :: 0 <= i < |s.prod| ==> !s.prod[i].PAsleep?;
  }

  /** From a settled state on, that the reader came too early stays as it is, but for a wakeup
      nobody announced. */
  lemma {:induction false} SettledRuns(c: Config, s: State, rest: seq<Action>, t: State)
    requires Inv(c, s) && Settled(s) && Exec(System(c), s, rest) == Some(t)
    ensures Inv(c, t) && Settled(t) && |t.cons| == |s.cons|
    ensures TooEarly(t) <==> TooEarly(s) && forall k :: 0 <= k < |rest| ==> rest[k].Move?
    decreases |rest|
  {
    hide Inv, Settled, TooEarly, Next;
    if rest != [] {
      var n := |rest| - 1;
      var m := Exec(System(c), s, rest[..n]).value;
      SettledRuns(c, s, rest[..n], m);
      SettledStep(c, m, rest[n], t);
    }
  }

  lemma SettledStep(c: Config, s: State, a: Action, s': State)
    requires Inv(c, s) && Settled(s) && Next(c, s, a) == Some(s')
    ensures Inv(c, s') && Settled(s') && |s'.cons| == |s.cons|
    ensures TooEarly(s') <==> TooEarly(s) && a.Move?
  {
    ConsumersStay(c, s, a, s');
    hide Inv, Settled, TooEarly, Next;
    StepKeepsInv(c, s, a, s');
    match a {
      case Move(Producer(i)) => ProducerStaysSettled(c, s, i, s');
      case Move(Consumer(i)) => ConsumerStaysSettled(c, s, i, s');
      case Spurious(t) => SpuriousWakes(c, s, t, s');
    }
  }

  lemma ConsumersStay(c: Config, s: State, a: Action, s': State)
    requires Next(c, s, a) == Some(s')
    ensures |s'.cons| == |s.cons|
  {
    hide ActP, ActC;
  }

  /** Where nobody can move, the consumers have all returned unless the reader came too early. */
  lemma StuckConsumers(c: Config, t: State)
    requires Inv(c, t) && |t.cons| >= 1 && Stuck(c, t)
    ensures (forall i :: 0 <= i < |t.cons| ==> t.cons[i].CDone?) <==> !TooEarly(t)
    ensures ProducersReturned(t) && (|t.prod| >= 1 ==> Settled(t))
  {
    if !(ProducersReturned(t) && ConsumersOver(t)) {
      var x := Mover(c, t);
    }
    hide Core, Stuck;
    if i: nat :| Sleeper(t, i) {
      assert t.mem.locks.read == Some(i) && Reader(t) == t.cons[i];
    }
    if |t.prod| >= 1 { assert t.prod[0].PDone?; }
  }

  /** The exact condition.  Cut any run that ends with nobody able to move at any of its settled
      states: all consumers return exactly if there the reader did not come too early, or if it
      is woken by chance afterwards. */
  lemma ConsumersReturnIff(c: Config, P: nat, K: nat, N: nat, first: seq<Action>, s: State, rest: seq<Action>, t: State)
    requires P >= 1 && K >= 1 && N >= 1
    requires Reaches(c, P, K, N, first, s) && Settled(s)
    requires Exec(System(c), s, rest) == Some(t) && Stuck(c, t)
    ensures (forall i :: 0 <= i < |t.cons| ==> t.cons[i].CDone?) <==>
            !TooEarly(s) || exists k :: 0 <= k < |rest| && rest[k].Spurious?
  {
    EveryRunKeepsInv(c, P, K, N, first, s);
    ThreadCount(c, P, K, N, first, s);
    SettledRuns(c, s, rest, t);
    StuckConsumers(c, t);
    hide Inv, Settled, TooEarly, Next, Stuck;
    assert forall k :: 0 <= k < |rest| ==> !(rest[k].Move? && rest[k].Spurious?);
  }

  /** Such a cut is always there: the end of the run is one. */
  lemma StuckIsSettled(c: Config, P: nat, K: nat, N: nat, schedule: seq<Action>, t: State)
    requires P >= 1 && K >= 1 && N >= 1 && Reaches(c, P, K, N, schedule, t) && Stuck(c, t)
    ensures Settled(t)
  {
    EveryRunKeepsInv(c, P, K, N, schedule, t);
    ThreadCount(c, P, K, N, schedule, t);
    StuckConsumers(c, t);
  }
}
