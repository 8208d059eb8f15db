/** The whole system of producers and consumers: what every run keeps. */
module RingSystem {
  import opened Runs
  import opened Ring
  import opened RingInvariant

  /** Program point of the producer holding write_lock, PLockW when there is none. */
  function Writer(s: State): PPc {
    if s.mem.locks.write.Some? && s.mem.locks.write.value < |s.prod| then s.prod[s.mem.locks.write.value] else PLockW
  }

  function Reader(s: State): CPc {
    if s.mem.locks.read.Some? && s.mem.locks.read.value < |s.cons| then s.cons[s.mem.locks.read.value] else CLockR
  }

  /** One thread at a time is inside each critical section, and it is the lock's holder. */
  ghost predicate Exclusive(s: State) {
    && (s.mem.locks.write.Some? ==> s.mem.locks.write.value < |s.prod|)
    && (forall i :: 0 <= i < |s.prod| ==> (HoldsWriteLock(s.prod[i]) <==> s.mem.locks.write == Some(i)))
    && (s.mem.locks.read.Some? ==> s.mem.locks.read.value < |s.cons|)
    && (forall i :: 0 <= i < |s.cons| ==> (HoldsReadLock(s.cons[i]) <==> s.mem.locks.read == Some(i)))
  }

  ghost predicate Inv(c: Config, s: State) {
    && Exclusive(s)
    && Core(c, s.mem, Writer(s), Reader(s))
    && (forall i :: 0 <= i < |s.prod| ==> KnowsP(c, s.mem.buf, s.mem.endTime, s.prod[i]))
    && (forall i :: 0 <= i < |s.cons| ==> KnowsC(c, s.mem.buf, s.cons[i]))
  }

  lemma WriterKeeps(c: Config, m: Memory, i: nat, w: PPc, r: CPc, e: EffectP)
    requires Core(c, m, w, r) && WriterActs(c, m, i, w, e)
    requires !w.PSetEnd? && !w.PDone?
    ensures KeptP(c, e, r)
  {
    match w
    case PLockW | PLockCell | PRelock | PAsleep => WriterEnters(c, m, i, w, r, e);
    case PTest => WriterTests(c, m, i, w, r, e);
    case PWait | PUnlockCell | PEofUnlockCell => WriterUnlocks(c, m, i, w, r, e);
    case PRead | PCountLine => WriterReads(c, m, i, w, r, e);
    case PStore(_) => WriterStores(c, m, i, w, r, e);
    case PNotify | PEofNotify => WriterAnnounces(c, m, i, w, r, e);
    case PInc | PMod => WriterAdvances(c, m, i, w, r, e);
    case PUnlockW | PEofUnlockW => WriterLeaves(c, m, i, w, r, e);
  }

  lemma ReaderKeeps(c: Config, m: Memory, i: nat, w: PPc, r: CPc, e: EffectC)
    requires Core(c, m, w, r) && ReaderActs(c, m, i, r, e) && !r.CDone?
    ensures KeptC(c, e, w)
  {
    match r
    case CLockR | CLockCell | CRelock | CAsleep => ReaderEnters(c, m, i, w, r, e);
    case CTest | CTestEnd => ReaderTests(c, m, i, w, r, e);
    case CWait | CUnlockCell | CExitUnlockCell => ReaderUnlocks(c, m, i, w, r, e);
    case CCount => ReaderCounts(c, m, i, w, r, e);
    case CClear => ReaderClears(c, m, i, w, r, e);
    case CNotify => ReaderAnnounces(c, m, i, w, r, e);
    case CInc | CMod => ReaderAdvances(c, m, i, w, r, e);
    case CUnlockR | CExitUnlockR => ReaderLeaves(c, m, i, w, r, e);
  }

  /** Setting end_time is the one action a producer makes outside its critical section. */
  lemma EndIsSet(c: Config, m: Memory, w: PPc, r: CPc)
    requires Core(c, m, w, r) && m.buf.stored == |c.file|
    ensures Core(c, m.(endTime := true), w, r)
  {
  }

  /** What an action leaves alone. */
  lemma FrameP(c: Config, m: Memory, i: nat, pc: PPc, e: EffectP)
    requires ActP(c, m, i, pc) == e && e.DoneP?
    requires HoldsWriteLock(pc) <==> m.locks.write == Some(i)
    ensures e.mem.locks.read == m.locks.read
    ensures HoldsWriteLock(e.pc) <==> e.mem.locks.write == Some(i)
    ensures e.mem.locks.write == m.locks.write || (m.locks.write.Some? && e.mem.locks.write == None) || e.mem.locks.write == Some(i)
    ensures m.locks.write.Some? && m.locks.write != Some(i) ==> e.mem.locks.write == m.locks.write
    ensures e.mem.buf.stored >= m.buf.stored && e.mem.buf.taken == m.buf.taken
    ensures m.endTime ==> e.mem.endTime
  {
  }

  lemma FrameC(c: Config, m: Memory, i: nat, pc: CPc, e: EffectC)
    requires ActC(c, m, i, pc) == e && e.DoneC?
    requires HoldsReadLock(pc) <==> m.locks.read == Some(i)
    ensures e.mem.locks.write == m.locks.write
    ensures HoldsReadLock(e.pc) <==> e.mem.locks.read == Some(i)
    ensures m.locks.read.Some? && m.locks.read != Some(i) ==> e.mem.locks.read == m.locks.read
    ensures m.locks.read == None ==> e.mem.locks.read == None || e.mem.locks.read == Some(i)
    ensures e.mem.buf.stored == m.buf.stored && |e.mem.buf.taken| >= |m.buf.taken|
    ensures m.endTime == e.mem.endTime
  {
  }

  lemma ProducerExclusive(c: Config, s: State, i: nat, s': State)
    requires Exclusive(s) && Next(c, s, Move(Producer(i))) == Some(s')
    ensures Exclusive(s')
    ensures Writer(s') == (if HoldsWriteLock(s.prod[i]) || s.prod[i].PLockW? then ActiveP(ActP(c, s.mem, i, s.prod[i]).pc) else Writer(s))
    ensures Reader(s') == AfterP(ActP(c, s.mem, i, s.prod[i]).wakes, Reader(s))
  {
    FrameP(c, s.mem, i, s.prod[i], ActP(c, s.mem, i, s.prod[i]));
    hide ActP;
  }

  lemma CoreBounds(c: Config, m: Memory, w: PPc, r: CPc)
    requires Core(c, m, w, r)
    ensures |m.buf.taken| <= m.buf.stored <= |c.file|
    ensures m.endTime ==> m.buf.stored == |c.file|
  {
  }

  lemma ProducerCore(c: Config, s: State, i: nat, s': State)
    requires Exclusive(s) && i < |s.prod| && Core(c, s.mem, Writer(s), Reader(s)) && KnowsP(c, s.mem.buf, s.mem.endTime, s.prod[i])
    requires Next(c, s, Move(Producer(i))) == Some(s')
    ensures Core(c, s'.mem, Writer(s'), Reader(s'))
    ensures KnowsP(c, s'.mem.buf, s'.mem.endTime, s'.prod[i])
  {
    hide Core;
    var pc := s.prod[i];
    ProducerExclusive(c, s, i, s');
    if pc.PSetEnd? {
      EndIsSet(c, s.mem, Writer(s), Reader(s));
    } else {
      WriterKeeps(c, s.mem, i, pc, Reader(s), ActP(c, s.mem, i, pc));
    }
  }

  lemma ProducerStep(c: Config, s: State, i: nat, s': State)
    requires Inv(c, s) && Next(c, s, Move(Producer(i))) == Some(s')
    ensures Inv(c, s')
  {
    hide Core;
    ProducerExclusive(c, s, i, s');
    ProducerCore(c, s, i, s');
    FrameP(c, s.mem, i, s.prod[i], ActP(c, s.mem, i, s.prod[i]));
    CoreBounds(c, s'.mem, Writer(s'), Reader(s'));
    hide ActP, Writer, Reader, Exclusive;
  }

  lemma ConsumerExclusive(c: Config, s: State, i: nat, s': State)
    requires Exclusive(s) && Next(c, s, Move(Consumer(i))) == Some(s')
    ensures Exclusive(s')
    ensures Reader(s') == (if HoldsReadLock(s.cons[i]) || s.cons[i].CLockR? then ActiveC(ActC(c, s.mem, i, s.cons[i]).pc) else Reader(s))
    ensures Writer(s') == AfterC(ActC(c, s.mem, i, s.cons[i]).wakes, Writer(s))
  {
    FrameC(c, s.mem, i, s.cons[i], ActC(c, s.mem, i, s.cons[i]));
    hide ActC;
  }

  lemma ConsumerCore(c: Config, s: State, i: nat, s': State)
    requires Exclusive(s) && i < |s.cons| && Core(c, s.mem, Writer(s), Reader(s))
    requires Next(c, s, Move(Consumer(i))) == Some(s')
    ensures Core(c, s'.mem, Writer(s'), Reader(s'))
    ensures KnowsC(c, s'.mem.buf, s'.cons[i])
  {
    hide Core;
    ConsumerExclusive(c, s, i, s');
    ReaderKeeps(c, s.mem, i, Writer(s), s.cons[i], ActC(c, s.mem, i, s.cons[i]));
  }

  lemma ConsumerStep(c: Config, s: State, i: nat, s': State)
    requires Inv(c, s) && Next(c, s, Move(Consumer(i))) == Some(s')
    ensures Inv(c, s')
  {
    hide Core;
    ConsumerExclusive(c, s, i, s');
    ConsumerCore(c, s, i, s');
    FrameC(c, s.mem, i, s.cons[i], ActC(c, s.mem, i, s.cons[i]));
    CoreBounds(c, s'.mem, Writer(s'), Reader(s'));
    hide ActC, Writer, Reader, Exclusive;
  }

  /** A sleeper that wakes for no reason only finds out that it has to test again. */
  lemma SpuriousCore(c: Config, m: Memory, w: PPc, r: CPc)
    requires Core(c, m, w, r)
    ensures w.PAsleep? ==> Core(c, m, PRelock, r)
    ensures r.CAsleep? ==> Core(c, m, w, CRelock)
  {
    hide CellLocks, CursorsOk, CellContents, CountersOk;
  }

  lemma SpuriousStep(c: Config, s: State, t: Thread, s': State)
    requires Inv(c, s) && Next(c, s, Spurious(t)) == Some(s')
    ensures Inv(c, s')
  {
    hide Core;
    SpuriousCore(c, s.mem, Writer(s), Reader(s));
  }

  lemma StepKeepsInv(c: Config, s: State, a: Action, s': State)
    requires Inv(c, s) && Next(c, s, a) == Some(s')
    ensures Inv(c, s')
  {
    match a
    case Move(Producer(i)) => ProducerStep(c, s, i, s');
    case Move(Consumer(i)) => ConsumerStep(c, s, i, s');
    case Spurious(t) => SpuriousStep(c, s, t, s');
  }

  lemma InitInv(c: Config, P: nat, K: nat, N: nat)
    requires N >= 1
    ensures Inv(c, Init(P, K, N))
  {
  }

  function System(c: Config): (State, Action) -> Option<State> {
    (s, a) => Next(c, s, a)
  }

  /** s is what some run of P producers and K consumers over N cells leads to. */
  ghost predicate Reaches(c: Config, P: nat, K: nat, N: nat, schedule: seq<Action>, s: State) {
    Exec(System(c), Init(P, K, N), schedule) == Some(s)
  }

  /** The ring invariant holds in every state of every run. */
  lemma EveryRunKeepsInv(c: Config, P: nat, K: nat, N: nat, schedule: seq<Action>, s: State)
    requires N >= 1 && Reaches(c, P, K, N, schedule, s)
    ensures Inv(c, s)
  {
    InitInv(c, P, K, N);
    forall m, a | Inv(c, m) && System(c)(m, a).Some?
      ensures Inv(c, System(c)(m, a).value)
    {
      StepKeepsInv(c, m, a, System(c)(m, a).value);
    }
    InvariantHolds(System(c), m => Inv(c, m), Init(P, K, N), schedule);
  }
}
