/** What announcements do.  Each producer announces every line and the end of the file, each
    consumer every cell it empties; nobody who sleeps then stays asleep unnoticed, and a consumer
    that looks at end_time once it is set returns. */
module RingWakeups {
  import opened Runs
  import opened Ring
  import opened RingInvariant
  import opened RingSystem
  import opened RingTheorems
  import opened RingReturn
  import opened DivMod

  predicate AnnouncesW(pc: PPc) { pc.PNotify? || pc.PEofNotify? }

  /** A producer's move: with condition variables its announcement wakes every consumer that
      sleeps; with semaphores it adds one token.  Nothing else it does wakes anybody. */
  lemma ProducerWakes(c: Config, s: State, i: nat, s': State)
    requires Next(c, s, Move(Producer(i))) == Some(s')
    ensures i < |s.prod| && |s'.cons| == |s.cons|
    ensures AnnouncesW(s.prod[i]) && c.sync == CondVars ==>
              && s'.mem.tokens == s.mem.tokens
              && forall j :: 0 <= j < |s.cons| ==>
                   !s'.cons[j].CAsleep? && (s'.cons[j] == s.cons[j] || (s.cons[j].CAsleep? && s'.cons[j].CRelock?))
    ensures AnnouncesW(s.prod[i]) && c.sync == Semaphores ==>
              s'.cons == s.cons && s'.mem.tokens == s.mem.tokens.(writing := s.mem.tokens.writing + 1)
    ensures !AnnouncesW(s.prod[i]) ==> s'.cons == s.cons && s'.mem.tokens.writing == s.mem.tokens.writing
    ensures !AnnouncesW(s.prod[i]) ==>
              s'.mem.tokens.reading == s.mem.tokens.reading - if s.prod[i].PAsleep? then 1 else 0
  {
  }

  /** The same of a consumer that empties a cell. */
  lemma ConsumerWakes(c: Config, s: State, i: nat, s': State)
    requires Next(c, s, Move(Consumer(i))) == Some(s')
    ensures i < |s.cons| && |s'.prod| == |s.prod|
    ensures s.cons[i].CNotify? && c.sync == CondVars ==>
              && s'.mem.tokens == s.mem.tokens
              && forall j :: 0 <= j < |s.prod| ==>
                   !s'.prod[j].PAsleep? && (s'.prod[j] == s.prod[j] || (s.prod[j].PAsleep? && s'.prod[j].PRelock?))
    ensures s.cons[i].CNotify? && c.sync == Semaphores ==>
              s'.prod == s.prod && s'.mem.tokens == s.mem.tokens.(reading := s.mem.tokens.reading + 1)
    ensures !s.cons[i].CNotify? ==> s'.prod == s.prod && s'.mem.tokens.reading == s.mem.tokens.reading
    ensures !s.cons[i].CNotify? ==>
              s'.mem.tokens.writing == s.mem.tokens.writing - if s.cons[i].CAsleep? then 1 else 0
  {
  }

  // ---------- a consumer that looks in time ----------

  predicate Returning(pc: CPc) { pc.CTestEnd? || pc.CExitUnlockCell? || pc.CExitUnlockR? || pc.CDone? }

  lemma ReturningStays(c: Config, s: State, i: nat, a: Action, s': State)
    requires i < |s.cons| && s.mem.endTime && Returning(s.cons[i]) && Next(c, s, a) == Some(s')
    ensures i < |s'.cons| && s'.mem.endTime && Returning(s'.cons[i])
  {
  }

  lemma {:induction false} ReturningRuns(c: Config, s: State, i: nat, rest: seq<Action>, t: State)
    requires i < |s.cons| && s.mem.endTime && Returning(s.cons[i]) && Exec(System(c), s, rest) == Some(t)
    ensures i < |t.cons| && t.mem.endTime && Returning(t.cons[i])
    decreases |rest|
  {
    hide Next, Returning;
    if rest != [] {
      var m := Exec(System(c), s, rest[..|rest| - 1]).value;
      ReturningRuns(c, s, i, rest[..|rest| - 1], m);
      ReturningStays(c, m, i, rest[|rest| - 1], t);
    }
  }

  /** A consumer that finds its cell NULL and then end_time set never sleeps again, and returns. */
  lemma LookInTimeReturns(c: Config, P: nat, K: nat, N: nat, first: seq<Action>, s: State, i: nat, rest: seq<Action>, t: State)
    requires P >= 1 && N >= 1 && Reaches(c, P, K, N, first, s)
    requires i < |s.cons| && s.cons[i].CTestEnd? && s.mem.endTime && Exec(System(c), s, rest) == Some(t)
    ensures i < |t.cons| && Returning(t.cons[i])
    ensures Stuck(c, t) ==> t.cons[i].CDone?
  {
    ReturningRuns(c, s, i, rest, t);
    ExecConcat(System(c), Init(P, K, N), first, rest);
    hide Next;
    EveryRunKeepsInv(c, P, K, N, first + rest, t);
    ThreadCount(c, P, K, N, first + rest, t);
    if Stuck(c, t) {
      hide Inv;
      StuckIff(c, P, K, N, first + rest, t);
      if k: nat :| Sleeper(t, k) { assert k != i; }
    }
  }

  // ---------- woken by the last announcement ----------

  /** The reader is not about to sleep, and not asleep without a token for it. */
  predicate Alert(s: State) { !Reader(s).CWait? && (Reader(s).CAsleep? ==> s.mem.tokens.writing > 0) }

  /** The announcement of the end leaves the reader alert, wherever it was. */
  lemma EndIsHeard(c: Config, s: State, i: nat, s': State)
    requires Inv(c, s) && i < |s.prod| && s.prod[i].PEofNotify? && Next(c, s, Move(Producer(i))) == Some(s')
    ensures Alert(s')
  {
    NobodyAboutToWait(c, s.mem, Writer(s), Reader(s));
    assert s.mem.locks.write == Some(i) && Writer(s) == s.prod[i];
    ProducerExclusive(c, s, i, s');
    EffectOfEnd(c, s, i, s');
    hide Inv, Next, ActP, Reader, Writer;
  }

  lemma EffectOfEnd(c: Config, s: State, i: nat, s': State)
    requires i < |s.prod| && s.prod[i].PEofNotify? && Next(c, s, Move(Producer(i))) == Some(s')
    ensures var e := ActP(c, s.mem, i, s.prod[i]);
            && e.DoneP? && s'.mem == e.mem && (e.wakes <==> c.sync == CondVars)
            && (c.sync == Semaphores ==> e.mem.tokens.writing > 0)
  {
  }

  /** Writer and reader are at the same cell when the ring is empty, and its lock is the writer's. */
  lemma NobodyAboutToWait(c: Config, m: Memory, w: PPc, r: CPc)
    requires Core(c, m, w, r) && w.PEofNotify?
    ensures !r.CWait?
  {
  }

  /** Consumer j tests end_time in this step. */
  predicate Tests(s: State, a: Action) {
    a.Move? && a.t.Consumer? && a.t.id < |s.cons| && s.cons[a.t.id].CTestEnd?
  }

  ghost predicate NobodyTests(c: Config, s: State, schedule: seq<Action>)
    decreases |schedule|
  {
    schedule == [] ||
    var front := schedule[..|schedule| - 1];
    && NobodyTests(c, s, front)
    && match Exec(System(c), s, front)
       case None => true
       case Some(m) => !Tests(m, schedule[|schedule| - 1])
  }

  lemma ConsumerStaysAlert(c: Config, s: State, i: nat, s': State)
    requires Inv(c, s) && Alert(s) && Next(c, s, Move(Consumer(i))) == Some(s') && i < |s.cons| && !s.cons[i].CTestEnd?
    ensures Alert(s')
  {
    assert !HoldsReadLock(s.cons[i]) ==> s.cons[i].CLockR? || s.cons[i].CDone?;
    assert HoldsReadLock(s.cons[i]) ==> Reader(s) == s.cons[i];
    ConsumerExclusive(c, s, i, s');
    ConsumerWakes(c, s, i, s');
    LeadsToSleep(c, s, i, s');
    hide Inv, Next, ActC, Reader, Writer;
  }

  lemma LeadsToSleep(c: Config, s: State, i: nat, s': State)
    requires Next(c, s, Move(Consumer(i))) == Some(s') && i < |s.cons|
    ensures var e := ActC(c, s.mem, i, s.cons[i]);
            && e.DoneC? && (e.pc.CWait? ==> s.cons[i].CTestEnd?) && (e.pc.CAsleep? ==> s.cons[i].CWait?)
            && (s.cons[i].CAsleep? ==> !e.pc.CAsleep?)
            && (!s.cons[i].CDone? || e.pc == CDone)
  {
  }

  lemma ProducerStaysAlert(c: Config, s: State, i: nat, s': State)
    requires Inv(c, s) && Alert(s) && Next(c, s, Move(Producer(i))) == Some(s')
    ensures Alert(s')
  {
    ProducerExclusive(c, s, i, s');
    ProducerWakes(c, s, i, s');
    hide Inv, Next, ActP, Reader, Writer;
  }

  lemma SpuriousStaysAlert(c: Config, s: State, t: Thread, s': State)
    requires Inv(c, s) && Alert(s) && Next(c, s, Spurious(t)) == Some(s')
    ensures Alert(s')
  {
    hide Core, KnowsP, KnowsC;
  }

  lemma {:induction false} AlertRuns(c: Config, s: State, rest: seq<Action>, t: State)
    requires Inv(c, s) && Alert(s) && Exec(System(c), s, rest) == Some(t) && NobodyTests(c, s, rest)
    ensures Inv(c, t) && Alert(t)
    decreases |rest|
  {
    if rest != [] {
      var n := |rest| - 1;
      var m := Exec(System(c), s, rest[..n]).value;
      var a := rest[n];
      assert NobodyTests(c, s, rest[..n]) && !Tests(m, a);
      AlertRuns(c, s, rest[..n], m);
      hide Inv, Alert, Next;
      StepKeepsInv(c, m, a, t);
      match a {
        case Move(Producer(i)) => ProducerStaysAlert(c, m, i, t);
        case Move(Consumer(i)) => ConsumerMover(c, m, i, t); ConsumerStaysAlert(c, m, i, t);
        case Spurious(x) => SpuriousStaysAlert(c, m, x, t);
      }
    }
  }

  lemma ConsumerMover(c: Config, s: State, i: nat, s': State)
    requires Next(c, s, Move(Consumer(i))) == Some(s')
    ensures i < |s.cons|
  {
  }

  /** Whoever sleeps when a producer meets the end of the file is woken by its announcement: if
      from then on nobody looks at end_time before it is set and all announcements are made, every
      consumer returns, however the run goes on to its end. */
  lemma HeardInTimeMeansReturn(c: Config, P: nat, K: nat, N: nat, first: seq<Action>, s: State, i: nat, s': State,
                               until: seq<Action>, m: State, rest: seq<Action>, t: State)
    requires P >= 1 && K >= 1 && N >= 1 && Reaches(c, P, K, N, first, s)
    requires i < |s.prod| && s.prod[i].PEofNotify? && Next(c, s, Move(Producer(i))) == Some(s')
    requires Exec(System(c), s', until) == Some(m) && NobodyTests(c, s', until) && Settled(m)
    requires Exec(System(c), m, rest) == Some(t) && Stuck(c, t)
    ensures forall k :: 0 <= k < |t.cons| ==> t.cons[k].CDone?
  {
    EveryRunKeepsInv(c, P, K, N, first, s);
    ThreadCount(c, P, K, N, first, s);
    EndIsHeard(c, s, i, s');
    StepKeepsInv(c, s, Move(Producer(i)), s');
    AlertRuns(c, s', until, m);
    AlertIsNotTooEarly(m);
    ConsumersStay(c, s, Move(Producer(i)), s');
    ConsumersCountRuns(c, s', until, m);
    SettledRuns(c, m, rest, t);
    hide Inv, Next, Settled, Stuck;
    StuckConsumers(c, t);
  }

  lemma AlertIsNotTooEarly(s: State)
    requires Alert(s)
    ensures !TooEarly(s)
  {
  }

  lemma {:induction false} ConsumersCountRuns(c: Config, s: State, rest: seq<Action>, t: State)
    requires Exec(System(c), s, rest) == Some(t)
    ensures |t.cons| == |s.cons|
    decreases |rest|
  {
    hide Next;
    if rest != [] {
      var m := Exec(System(c), s, rest[..|rest| - 1]).value;
      ConsumersCountRuns(c, s, rest[..|rest| - 1], m);
      ConsumersStay(c, m, rest[|rest| - 1], t);
    }
  }

  // ---------- who waits for what ----------

  lemma WriterBlockedIff(c: Config, m: Memory, i: nat, w: PPc, r: CPc)
    requires Core(c, m, w, r) && (HoldsWriteLock(w) ==> m.locks.write == Some(i)) && !w.PSetEnd? && !w.PDone?
    ensures ActP(c, m, i, w).BlockedP? <==>
            || (w.PLockW? && m.locks.write.Some?)
            || ((w.PLockCell? || w.PRelock?) && HoldsCellC(r) && m.pos.r == m.pos.w)
            || (w.PAsleep? && (c.sync == CondVars || m.tokens.reading == 0))
  {
    hide CellContents, CountersOk, Tested, Remainder;
    CursorsInRange(m.buf, m.pos, PhaseP(w), PhaseC(r));
  }

  lemma ReaderBlockedIff(c: Config, m: Memory, i: nat, w: PPc, r: CPc)
    requires Core(c, m, w, r) && (HoldsReadLock(r) ==> m.locks.read == Some(i)) && !r.CDone?
    ensures ActC(c, m, i, r).BlockedC? <==>
            || (r.CLockR? && m.locks.read.Some?)
            || ((r.CLockCell? || r.CRelock?) && HoldsCellP(w) && m.pos.w == m.pos.r)
            || (r.CAsleep? && (c.sync == CondVars || m.tokens.writing == 0))
  {
    CellUnderCursor(c, m.buf);
    hide CellContents, CountersOk, Remainder;
    CursorsInRange(m.buf, m.pos, PhaseP(w), PhaseC(r));
  }

  /** A thread is blocked only by a peer that has the lock it wants, by its own sleep, or because
      it has returned; only with condition variables is there a wakeup by chance. */
  lemma BlockedIff(c: Config, P: nat, K: nat, N: nat, schedule: seq<Action>, s: State)
    requires N >= 1 && Reaches(c, P, K, N, schedule, s)
    ensures forall i :: 0 <= i < |s.prod| ==>
              (Next(c, s, Move(Producer(i))).None? <==>
                 || (s.prod[i].PLockW? && s.mem.locks.write.Some?)
                 || ((s.prod[i].PLockCell? || s.prod[i].PRelock?) && HoldsCellC(Reader(s)) && s.mem.pos.r == s.mem.pos.w)
                 || (s.prod[i].PAsleep? && (c.sync == CondVars || s.mem.tokens.reading == 0))
                 || s.prod[i].PDone?)
    ensures forall i :: 0 <= i < |s.cons| ==>
              (Next(c, s, Move(Consumer(i))).None? <==>
                 || (s.cons[i].CLockR? && s.mem.locks.read.Some?)
                 || ((s.cons[i].CLockCell? || s.cons[i].CRelock?) && HoldsCellP(Writer(s)) && s.mem.pos.w == s.mem.pos.r)
                 || (s.cons[i].CAsleep? && (c.sync == CondVars || s.mem.tokens.writing == 0))
                 || s.cons[i].CDone?)
    ensures forall i: nat :: Next(c, s, Spurious(Producer(i))).Some? <==>
              c.sync == CondVars && i < |s.prod| && s.prod[i].PAsleep?
    ensures forall i: nat :: Next(c, s, Spurious(Consumer(i))).Some? <==>
              c.sync == CondVars && i < |s.cons| && s.cons[i].CAsleep?
  {
    EveryRunKeepsInv(c, P, K, N, schedule, s);
    forall i | 0 <= i < |s.prod|
      ensures Next(c, s, Move(Producer(i))).None? <==>
              || (s.prod[i].PLockW? && s.mem.locks.write.Some?)
              || ((s.prod[i].PLockCell? || s.prod[i].PRelock?) && HoldsCellC(Reader(s)) && s.mem.pos.r == s.mem.pos.w)
              || (s.prod[i].PAsleep? && (c.sync == CondVars || s.mem.tokens.reading == 0))
              || s.prod[i].PDone?
    {
      ProducerBlockedIff(c, s, i);
    }
    forall i | 0 <= i < |s.cons|
      ensures Next(c, s, Move(Consumer(i))).None? <==>
              || (s.cons[i].CLockR? && s.mem.locks.read.Some?)
              || ((s.cons[i].CLockCell? || s.cons[i].CRelock?) && HoldsCellP(Writer(s)) && s.mem.pos.w == s.mem.pos.r)
              || (s.cons[i].CAsleep? && (c.sync == CondVars || s.mem.tokens.writing == 0))
              || s.cons[i].CDone?
    {
      ConsumerBlockedIff(c, s, i);
    }
  }

  lemma ProducerBlockedIff(c: Config, s: State, i: nat)
    requires Inv(c, s) && i < |s.prod|
    ensures Next(c, s, Move(Producer(i))).None? <==>
            || (s.prod[i].PLockW? && s.mem.locks.write.Some?)
            || ((s.prod[i].PLockCell? || s.prod[i].PRelock?) && HoldsCellC(Reader(s)) && s.mem.pos.r == s.mem.pos.w)
            || (s.prod[i].PAsleep? && (c.sync == CondVars || s.mem.tokens.reading == 0))
            || s.prod[i].PDone?
  {
    hide Core;
    if HoldsWriteLock(s.prod[i]) { WriterBlockedIff(c, s.mem, i, s.prod[i], Reader(s)); }
  }

  lemma ConsumerBlockedIff(c: Config, s: State, i: nat)
    requires Inv(c, s) && i < |s.cons|
    ensures Next(c, s, Move(Consumer(i))).None? <==>
            || (s.cons[i].CLockR? && s.mem.locks.read.Some?)
            || ((s.cons[i].CLockCell? || s.cons[i].CRelock?) && HoldsCellP(Writer(s)) && s.mem.pos.w == s.mem.pos.r)
            || (s.cons[i].CAsleep? && (c.sync == CondVars || s.mem.tokens.writing == 0))
            || s.cons[i].CDone?
  {
    hide Core;
    if HoldsReadLock(s.cons[i]) { ReaderBlockedIff(c, s.mem, i, Writer(s), s.cons[i]); }
  }

  /** No consumer leaves its loop before end_time is set. */
  lemma ReturnsAfterEnd(c: Config, P: nat, K: nat, N: nat, schedule: seq<Action>, s: State)
    requires Reaches(c, P, K, N, schedule, s)
    ensures (exists i :: 0 <= i < |s.cons| && Leaving(s.cons[i])) ==> s.mem.endTime
  {
    var after := (m: State) => (exists i :: 0 <= i < |m.cons| && Leaving(m.cons[i])) ==> m.mem.endTime;
    forall m, a | after(m) && System(c)(m, a).Some? ensures after(System(c)(m, a).value) {
      LeavesAfterEnd(c, m, a);
    }
    hide Next;
    InvariantHolds(System(c), after, Init(P, K, N), schedule);
  }

  lemma LeavesAfterEnd(c: Config, s: State, a: Action)
    requires Next(c, s, a).Some?
    requires (exists i :: 0 <= i < |s.cons| && Leaving(s.cons[i])) ==> s.mem.endTime
    ensures var t := Next(c, s, a).value; (exists i :: 0 <= i < |t.cons| && Leaving(t.cons[i])) ==> t.mem.endTime
  {
    var t := Next(c, s, a).value;
    assert s.mem.endTime ==> t.mem.endTime;
    if i :| 0 <= i < |t.cons| && Leaving(t.cons[i]) && !t.mem.endTime {
      assert !Leaving(s.cons[i]);
    }
  }
}
