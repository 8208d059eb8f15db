/** What the ring programs promise: they are a first-in first-out queue over the input
    file, a consumer that returns has seen the whole file searched, and nobody is stuck
    while there is work. */
module RingTheorems {
  import opened Runs
  import opened Ring
  import opened RingInvariant
  import opened RingSystem
  import opened DivMod
  import Fifo

  // ---------- refinement of the bounded queue ----------

  /** The lines in the ring, oldest first, read off the cells. */
  ghost function Queue(b: Buffer): seq<string> {
    if |b.cells| == 0 || b.stored < |b.taken| then []
    else
      seq(b.stored - |b.taken|, k requires 0 <= k < b.stored - |b.taken| =>
        match b.cells[Remainder(|b.taken| + k, |b.cells|)]
        case Some(line) => line
        case None => "")
  }

  ghost function Abstract(c: Config, s: State): Fifo.Fifo {
    var b := s.mem.buf;
    Fifo.Fifo(if b.stored <= |c.file| then c.file[b.stored..] else [], Queue(b), b.taken)
  }

  lemma QueueIsSlice(c: Config, b: Buffer)
    requires CellContents(c, b)
    ensures Queue(b) == c.file[|b.taken|..b.stored]
  {
    var t, n := |b.taken|, |b.cells|;
    forall k | 0 <= k < b.stored - t ensures Queue(b)[k] == c.file[t + k] {
      assert b.cells[Remainder(t + k, n)] == Some(c.file[t + k]);
    }
    hide CellContents, Queue, Remainder;
    SizesOf(c, b);
    SliceIs(c.file, t, b.stored, Queue(b));
  }

  lemma SliceIs(file: seq<string>, lo: nat, hi: nat, q: seq<string>)
    requires lo <= hi <= |file| && |q| == hi - lo && forall k :: 0 <= k < hi - lo ==> q[k] == file[lo + k]
    ensures q == file[lo..hi]
  {
  }

  /** The buffer changes in two actions only. */
  lemma BufferChange(c: Config, s: State, a: Action, s': State)
    requires Next(c, s, a) == Some(s')
    requires !Stores(s, a) && !Clears(s, a)
    ensures s'.mem.buf == s.mem.buf
  {
  }

  /** The abstract queue of a reachable state is the input file cut in three. */
  lemma AbstractIsFile(c: Config, s: State)
    requires Inv(c, s)
    ensures |s.mem.buf.taken| <= s.mem.buf.stored <= |c.file|
    ensures s.mem.buf.stored <= |s.mem.buf.taken| + |s.mem.buf.cells|
    ensures Abstract(c, s) == CutAt(c.file, |s.mem.buf.taken|, s.mem.buf.stored)
  {
    QueueIsSlice(c, s.mem.buf);
  }

  ghost function CutAt(file: seq<string>, taken: nat, stored: nat): Fifo.Fifo
    requires taken <= stored <= |file|
  {
    Fifo.Fifo(file[stored..], file[taken..stored], file[..taken])
  }

  lemma CutMoves(file: seq<string>, taken: nat, stored: nat, n: nat)
    requires taken <= stored <= |file|
    ensures stored < |file| && stored < taken + n ==> Fifo.Put(n, CutAt(file, taken, stored), CutAt(file, taken, stored + 1))
    ensures taken < stored ==> Fifo.Take(CutAt(file, taken, stored), CutAt(file, taken + 1, stored))
  {
    if stored < |file| {
      assert file[taken..stored + 1] == file[taken..stored] + [file[stored]];
    }
    if taken < stored {
      assert file[..taken + 1] == file[..taken] + [file[taken]];
    }
  }

  lemma StorePuts(c: Config, s: State, i: nat, s': State)
    requires Inv(c, s) && i < |s.prod| && s.prod[i].PStore? && Next(c, s, Move(Producer(i))) == Some(s')
    ensures s'.mem.buf.stored == s.mem.buf.stored + 1 && s'.mem.buf.taken == s.mem.buf.taken
    ensures |s'.mem.buf.cells| == |s.mem.buf.cells|
    ensures s.mem.buf.stored < |s.mem.buf.taken| + |s.mem.buf.cells|
  {
  }

  lemma ClearTakes(c: Config, s: State, i: nat, s': State)
    requires Inv(c, s) && i < |s.cons| && s.cons[i].CClear? && Next(c, s, Move(Consumer(i))) == Some(s')
    ensures s'.mem.buf.stored == s.mem.buf.stored && |s'.mem.buf.taken| == |s.mem.buf.taken| + 1
    ensures |s.mem.buf.taken| < s.mem.buf.stored
  {
  }

  predicate Stores(s: State, a: Action) { a.Move? && a.t.Producer? && a.t.id < |s.prod| && s.prod[a.t.id].PStore? }

  predicate Clears(s: State, a: Action) { a.Move? && a.t.Consumer? && a.t.id < |s.cons| && s.cons[a.t.id].CClear? }

  /** Every action of either program is a step of the abstract queue: storing puts the next
      line of the file, clearing takes the oldest line, and nothing else touches the queue. */
  lemma Refines(c: Config, s: State, a: Action, s': State)
    requires Inv(c, s) && Next(c, s, a) == Some(s')
    ensures Stores(s, a) ==> Fifo.Put(|s.mem.buf.cells|, Abstract(c, s), Abstract(c, s'))
    ensures Clears(s, a) ==> Fifo.Take(Abstract(c, s), Abstract(c, s'))
    ensures !Stores(s, a) && !Clears(s, a) ==> Abstract(c, s) == Abstract(c, s')
    ensures Fifo.Step(|s.mem.buf.cells|, Abstract(c, s), Abstract(c, s'))
  {
    hide Inv, Abstract, CutAt, Next, Fifo.Put, Fifo.Take;
    StepKeepsInv(c, s, a, s');
    AbstractIsFile(c, s);
    AbstractIsFile(c, s');
    CutMoves(c.file, |s.mem.buf.taken|, s.mem.buf.stored, |s.mem.buf.cells|);
    if Stores(s, a) {
      StorePuts(c, s, a.t.id, s');
    } else if Clears(s, a) {
      ClearTakes(c, s, a.t.id, s');
    } else {
      BufferChange(c, s, a, s');
    }
  }

  /** A run starts as the queue with the whole file pending, each of its steps is one step of
      the queue or leaves it alone, and wherever it gets, what was taken, what is queued and what
      is pending make up the file. */
  lemma RunsAreQueueRuns(c: Config, P: nat, K: nat, N: nat, schedule: seq<Action>, s: State, a: Action)
    requires N >= 1 && Reaches(c, P, K, N, schedule, s)
    ensures Abstract(c, Init(P, K, N)) == Fifo.Fifo(c.file, [], [])
    ensures Next(c, s, a).Some? ==> Fifo.Step(N, Abstract(c, s), Abstract(c, Next(c, s, a).value))
    ensures var q := Abstract(c, s); q.taken + q.queue + q.pending == c.file && |q.queue| <= N
  {
    EveryRunKeepsInv(c, P, K, N, schedule, s);
    RingSize(c, P, K, N, schedule, s);
    if Next(c, s, a).Some? { Refines(c, s, a, Next(c, s, a).value); }
    AbstractIsFile(c, s);
    hide Next, Inv, Abstract, Fifo.Step;
    ThreeCuts(c.file, |s.mem.buf.taken|, s.mem.buf.stored);
    InitIsEmpty(c, P, K, N);
  }

  lemma ThreeCuts(file: seq<string>, taken: nat, stored: nat)
    requires taken <= stored <= |file|
    ensures var q := CutAt(file, taken, stored); q.taken + q.queue + q.pending == file && |q.queue| == stored - taken
  {
    assert file[..stored] == file[..taken] + file[taken..stored];
  }

  lemma InitIsEmpty(c: Config, P: nat, K: nat, N: nat)
    ensures Abstract(c, Init(P, K, N)) == Fifo.Fifo(c.file, [], [])
  {
    assert c.file[0..] == c.file;
  }

  // ---------- the ring, seen from outside ----------

  lemma RingSize(c: Config, P: nat, K: nat, N: nat, schedule: seq<Action>, s: State)
    requires Reaches(c, P, K, N, schedule, s)
    ensures |s.mem.buf.cells| == N
  {
    InvariantHolds(System(c), (m: State) => |m.mem.buf.cells| == N, Init(P, K, N), schedule);
  }

  /** A thread between its deposit, or its take, and the remainder of its cursor. */
  predicate MovesW(pc: PPc) { LagsP(pc) || pc.PMod? }
  predicate MovesR(pc: CPc) { LagsC(pc) || pc.CMod? }

  /** In every reachable state, with w lines stored and t taken: the ring holds lines t up to w,
      line k in cell k mod N, and nothing else; and each cursor is w, or t, mod N, except while
      one thread is between its deposit (or take) and its remainder: there it lags by one line, and
      is one slot further, possibly beyond the ring, once incremented. */
  lemma RingShape(c: Config, P: nat, K: nat, N: nat, schedule: seq<Action>, s: State)
    requires N >= 1 && Reaches(c, P, K, N, schedule, s)
    ensures |s.mem.buf.cells| == N
    ensures var w, t := s.mem.buf.stored, |s.mem.buf.taken|;
            && t <= w <= t + N && w <= |c.file|
            && s.mem.buf.taken == c.file[..t]
            && (forall k :: t <= k < w ==> s.mem.buf.cells[k % N] == Some(c.file[k]))
            && (forall k :: w <= k < t + N ==> s.mem.buf.cells[k % N] == None)
    ensures (forall i :: 0 <= i < |s.prod| ==> !MovesW(s.prod[i])) ==> s.mem.pos.w == s.mem.buf.stored % N
    ensures (forall i :: 0 <= i < |s.cons| ==> !MovesR(s.cons[i])) ==> s.mem.pos.r == |s.mem.buf.taken| % N
    ensures forall i :: 0 <= i < |s.prod| && MovesW(s.prod[i]) ==>
              s.mem.buf.stored > 0 && s.mem.pos.w == (s.mem.buf.stored - 1) % N + if s.prod[i].PMod? then 1 else 0
    ensures forall i :: 0 <= i < |s.cons| && MovesR(s.cons[i]) ==>
              |s.mem.buf.taken| > 0 && s.mem.pos.r == (|s.mem.buf.taken| - 1) % N + if s.cons[i].CMod? then 1 else 0
  {
    EveryRunKeepsInv(c, P, K, N, schedule, s);
    RingSize(c, P, K, N, schedule, s);
    CellsAre(c, s.mem.buf, N);
    CursorsAre(s, N);
  }

  lemma CellsAre(c: Config, b: Buffer, N: nat)
    requires CellContents(c, b) && |b.cells| == N >= 1
    ensures forall k :: |b.taken| <= k < b.stored ==> b.cells[k % N] == Some(c.file[k])
    ensures forall k :: b.stored <= k < |b.taken| + N ==> b.cells[k % N] == None
  {
    forall k | |b.taken| <= k < |b.taken| + N
      ensures b.cells[k % N] == if k < b.stored then Some(c.file[k]) else None
    {
      RemainderIsMod(k, N);
      hide Remainder;
    }
  }

  lemma CursorsAre(s: State, N: nat)
    requires Exclusive(s) && CursorsOk(s.mem.buf, s.mem.pos, PhaseP(Writer(s)), PhaseC(Reader(s))) && |s.mem.buf.cells| == N >= 1
    ensures (forall i :: 0 <= i < |s.prod| ==> !MovesW(s.prod[i])) ==> s.mem.pos.w == s.mem.buf.stored % N
    ensures (forall i :: 0 <= i < |s.cons| ==> !MovesR(s.cons[i])) ==> s.mem.pos.r == |s.mem.buf.taken| % N
    ensures forall i :: 0 <= i < |s.prod| && MovesW(s.prod[i]) ==>
              s.mem.buf.stored > 0 && s.mem.pos.w == (s.mem.buf.stored - 1) % N + if s.prod[i].PMod? then 1 else 0
    ensures forall i :: 0 <= i < |s.cons| && MovesR(s.cons[i]) ==>
              |s.mem.buf.taken| > 0 && s.mem.pos.r == (|s.mem.buf.taken| - 1) % N + if s.cons[i].CMod? then 1 else 0
  {
    forall k: nat ensures k % N == Remainder(k, N) { RemainderIsMod(k, N); }
    hide Remainder;
  }

  /** Each condition has at most one sleeper, and no wakeup is lost: a sleeper whose announcement
      is not there yet still waits for its cell to change, or a peer has changed it and has yet to
      announce that. */
  lemma NoWakeupIsLost(c: Config, P: nat, K: nat, N: nat, schedule: seq<Action>, s: State)
    requires N >= 1 && Reaches(c, P, K, N, schedule, s)
    ensures forall i, j :: 0 <= i < j < |s.prod| && s.prod[i].PAsleep? ==> !s.prod[j].PAsleep?
    ensures forall i, j :: 0 <= i < j < |s.cons| && s.cons[i].CAsleep? ==> !s.cons[j].CAsleep?
    ensures forall i :: 0 <= i < |s.prod| && s.prod[i].PAsleep? && s.mem.tokens.reading == 0 ==>
              s.mem.buf.stored == |s.mem.buf.taken| + N || exists j :: 0 <= j < |s.cons| && s.cons[j].CNotify?
    ensures forall i :: 0 <= i < |s.cons| && s.cons[i].CAsleep? && s.mem.tokens.writing == 0 ==>
              s.mem.buf.stored == |s.mem.buf.taken| ||
              exists j :: 0 <= j < |s.prod| && (s.prod[j].PCountLine? || s.prod[j].PNotify?)
  {
    EveryRunKeepsInv(c, P, K, N, schedule, s);
    RingSize(c, P, K, N, schedule, s);
    hide CellLocks, CursorsOk, CellContents, CountersOk, Tested;
    if Reader(s).CNotify? { assert s.cons[s.mem.locks.read.value].CNotify?; }
    if Writer(s).PCountLine? || Writer(s).PNotify? { assert Writer(s) == s.prod[s.mem.locks.write.value]; }
  }

  /** A producer and a consumer are never both asleep with nothing on its way to wake them. */
  lemma NotBothAsleep(c: Config, P: nat, K: nat, N: nat, schedule: seq<Action>, s: State, i: nat, j: nat)
    requires N >= 1 && Reaches(c, P, K, N, schedule, s)
    requires i < |s.prod| && s.prod[i].PAsleep? && j < |s.cons| && s.cons[j].CAsleep?
    ensures s.mem.tokens.reading > 0 || s.mem.tokens.writing > 0
    ensures c.sync == Semaphores
  {
    EveryRunKeepsInv(c, P, K, N, schedule, s);
    RingSize(c, P, K, N, schedule, s);
    hide CellLocks, CursorsOk, CellContents, CountersOk, Tested;
    assert Writer(s) == s.prod[i] && Reader(s) == s.cons[j];
  }

  // ---------- what a returning consumer knows ----------

  lemma CountersWhenDone(c: Config, m: Memory, w: PPc, r: CPc)
    requires Core(c, m, w, r) && |m.buf.taken| == |c.file|
    ensures m.buf.taken == c.file && m.count.found == Matching(c, c.file)
    ensures forall k :: 0 <= k < |m.buf.cells| ==> m.buf.cells[k] == None
  {
    assert c.file[..|c.file|] == c.file;
    EmptyRing(c, m.buf);
  }

  lemma EmptyRing(c: Config, b: Buffer)
    requires CellContents(c, b) && b.stored == |b.taken|
    ensures forall k :: 0 <= k < |b.cells| ==> b.cells[k] == None
  {
    var t, n := |b.taken|, |b.cells|;
    forall k | 0 <= k < n
      ensures b.cells[k] == None
    {
      var j := EveryCellHasALine(t, n, k);
    }
  }

  /** Among n consecutive lines there is one for every cell. */
  lemma {:induction false} EveryCellHasALine(t: nat, n: nat, k: nat) returns (j: nat)
    requires k < n
    ensures t <= j < t + n && Remainder(j, n) == k
    decreases t
  {
    if t == 0 {
      j := k;
    } else {
      j := EveryCellHasALine(t - 1, n, k);
      if j == t - 1 {
        RemainderPeriod(j, n);
        j := j + n;
      }
    }
  }

  /** A consumer returns only after every line of the file has been taken, once and in file
      order, and then line_counter is the number of lines that satisfy the search. */
  lemma ReturnMeansSearched(c: Config, P: nat, K: nat, N: nat, schedule: seq<Action>, s: State, i: nat)
    requires N >= 1 && Reaches(c, P, K, N, schedule, s)
    requires i < |s.cons| && s.cons[i].CDone?
    ensures s.mem.buf.taken == c.file
    ensures s.mem.count.found == Matching(c, c.file)
    ensures forall k :: 0 <= k < |s.mem.buf.cells| ==> s.mem.buf.cells[k] == None
  {
    EveryRunKeepsInv(c, P, K, N, schedule, s);
    CountersWhenDone(c, s.mem, Writer(s), Reader(s));
  }

  /** What the three searches mean: a line of exactly L characters satisfies the second alone,
      shorter ones the first alone, longer ones the third alone; and nothing else is a search. */
  lemma SearchesMean(c: Config, line: string, more: string)
    ensures |line| == c.limit ==> (Satisfies(c, line) <==> c.mode == 1)
    ensures |line| == c.limit && more != [] ==> (Satisfies(c, line + more) <==> c.mode == 2)
    ensures |line + more| == c.limit && more != [] ==> (Satisfies(c, line) <==> c.mode == 0)
  {
  }

  /** Together they count every line once, and each counts the lines of two parts separately. */
  lemma {:induction false} SearchesPartition(c: Config, lines: seq<string>)
    ensures Matching(c.(mode := 0), lines) + Matching(c.(mode := 1), lines) + Matching(c.(mode := 2), lines) == |lines|
    ensures forall line :: Matching(c, lines + [line]) == Matching(c, lines) + if Satisfies(c, line) then 1 else 0
  {
    if lines != [] { SearchesPartition(c, lines[..|lines| - 1]); }
    forall line ensures Matching(c, lines + [line]) == Matching(c, lines) + if Satisfies(c, line) then 1 else 0 {
      assert (lines + [line])[..|lines|] == lines;
    }
  }

  // ---------- progress ----------

  ghost predicate Enabled(c: Config, s: State, t: Thread) {
    Next(c, s, Move(t)).Some?
  }

  ghost predicate Stuck(c: Config, s: State) {
    forall t :: !Enabled(c, s, t)
  }

  ghost predicate ProducersReturned(s: State) {
    forall i :: 0 <= i < |s.prod| ==> s.prod[i].PDone?
  }

  /** Every consumer has returned, or exactly one sleeps holding read_lock, with no token
      left, and the others have returned or queue for that lock. */
  ghost predicate ConsumersOver(s: State) {
    || (forall i :: 0 <= i < |s.cons| ==> s.cons[i].CDone?)
    || (exists i: nat :: Sleeper(s, i))
  }

  ghost predicate Sleeper(s: State, i: nat) {
    && i < |s.cons| && s.cons[i].CAsleep? && s.mem.tokens.writing == 0
    && forall j :: 0 <= j < |s.cons| && j != i ==> s.cons[j].CDone? || s.cons[j].CLockR?
  }

  /** Inside its critical section the writer waits only for a cell lock the reader holds, or
      for an announcement. */
  lemma WriterWaits(c: Config, m: Memory, i: nat, w: PPc, r: CPc)
    requires Core(c, m, w, r) && m.locks.write == Some(i) && ActP(c, m, i, w).BlockedP?
    ensures ((w.PLockCell? || w.PRelock?) && HoldsCellC(r)) || (w.PAsleep? && m.tokens.reading == 0)
  {
    hide CellContents, CountersOk, Tested, Remainder;
    CursorsInRange(m.buf, m.pos, PhaseP(w), PhaseC(r));
  }

  lemma ReaderWaits(c: Config, m: Memory, i: nat, w: PPc, r: CPc)
    requires Core(c, m, w, r) && m.locks.read == Some(i) && ActC(c, m, i, r).BlockedC?
    ensures ((r.CLockCell? || r.CRelock?) && HoldsCellP(w)) || (r.CAsleep? && m.tokens.writing == 0)
  {
    CellUnderCursor(c, m.buf);
    hide CellContents, CountersOk, Remainder;
    CursorsInRange(m.buf, m.pos, PhaseP(w), PhaseC(r));
  }

  /** If neither lock holder can move, each of them is asleep, and never both. */
  lemma HoldersBlocked(c: Config, m: Memory, w: PPc, r: CPc)
    requires Core(c, m, w, r)
    requires m.locks.write.Some? ==> ActP(c, m, m.locks.write.value, w).BlockedP?
    requires m.locks.read.Some? ==> ActC(c, m, m.locks.read.value, r).BlockedC?
    ensures m.locks.write.Some? ==> w.PAsleep? && m.locks.read == None && |m.buf.taken| < |c.file|
    ensures m.locks.read.Some? ==> r.CAsleep? && m.tokens.writing == 0 && m.buf.stored == |m.buf.taken|
  {
    if m.locks.write.Some? {
      WriterWaits(c, m, m.locks.write.value, w, r);
    }
    if m.locks.read.Some? {
      ReaderWaits(c, m, m.locks.read.value, w, r);
    }
    hide ActP, ActC, CellLocks, CursorsOk, CountersOk, Remainder;
  }

  /** While there is work, or a thread that has not noticed there is none, somebody can move. */
  lemma Mover(c: Config, s: State) returns (t: Thread)
    requires Inv(c, s) && |s.cons| >= 1
    requires !(ProducersReturned(s) && ConsumersOver(s))
    ensures Enabled(c, s, t)
  {
    var wl, rl := s.mem.locks.write, s.mem.locks.read;
    if wl.Some? && !ActP(c, s.mem, wl.value, Writer(s)).BlockedP? {
      t := Producer(wl.value);
    } else if rl.Some? && !ActC(c, s.mem, rl.value, Reader(s)).BlockedC? {
      t := Consumer(rl.value);
    } else {
      HoldersBlocked(c, s.mem, Writer(s), Reader(s));
      hide Core;
      if wl.Some? {
        t := Consumer(0);
      } else if !ProducersReturned(s) {
        var i :| 0 <= i < |s.prod| && !s.prod[i].PDone?;
        t := Producer(i);
      } else {
        assert rl.Some? ==> Sleeper(s, rl.value);
        var i :| 0 <= i < |s.cons| && !s.cons[i].CDone?;
        t := Consumer(i);
      }
    }
  }

  lemma NobodyMoves(c: Config, s: State, t: Thread)
    requires Inv(c, s) && ProducersReturned(s) && ConsumersOver(s)
    ensures !Enabled(c, s, t)
  {
    hide Core;
    if t.Consumer? && t.id < |s.cons| && !s.cons[t.id].CDone? {
      var i: nat :| Sleeper(s, i);
      assert s.mem.locks.read == Some(i);
    }
  }

  /** A reachable state is stuck exactly when every producer has returned and the consumers
      have all returned or one of them sleeps for good with the rest behind it. */
  lemma StuckIff(c: Config, P: nat, K: nat, N: nat, schedule: seq<Action>, s: State)
    requires N >= 1 && K >= 1 && Reaches(c, P, K, N, schedule, s)
    ensures Stuck(c, s) <==> ProducersReturned(s) && ConsumersOver(s)
  {
    EveryRunKeepsInv(c, P, K, N, schedule, s);
    ThreadCount(c, P, K, N, schedule, s);
    if ProducersReturned(s) && ConsumersOver(s) {
      forall t
        ensures !Enabled(c, s, t)
      {
        NobodyMoves(c, s, t);
      }
    } else {
      var t := Mover(c, s);
    }
  }

  lemma ThreadCount(c: Config, P: nat, K: nat, N: nat, schedule: seq<Action>, s: State)
    requires Reaches(c, P, K, N, schedule, s)
    ensures |s.prod| == P && |s.cons| == K
  {
    var same := (m: State) => |m.prod| == P && |m.cons| == K;
    InvariantHolds(System(c), same, Init(P, K, N), schedule);
  }

  /** Even when a consumer is left asleep nothing of the work is missing: once nobody can move,
      every line has been taken in order and line_counter is the answer to the search. */
  lemma StuckMeansSearched(c: Config, P: nat, K: nat, N: nat, schedule: seq<Action>, s: State)
    requires P >= 1 && N >= 1 && K >= 1 && Reaches(c, P, K, N, schedule, s) && Stuck(c, s)
    ensures s.mem.buf.taken == c.file && s.mem.count.found == Matching(c, c.file)
    ensures ProducersReturned(s)
  {
    EveryRunKeepsInv(c, P, K, N, schedule, s);
    StuckIff(c, P, K, N, schedule, s);
    ThreadCount(c, P, K, N, schedule, s);
    assert s.prod[0].PDone?;
    assert !Enabled(c, s, Consumer(0));
    var rl := s.mem.locks.read;
    if rl.Some? {
      assert !Enabled(c, s, Consumer(rl.value));
    }
    HoldersBlocked(c, s.mem, Writer(s), Reader(s));
    CountersWhenDone(c, s.mem, Writer(s), Reader(s));
  }

  // ---------- consumers need not return ----------

  /** The memory while a lone producer and a lone consumer share one cell on an empty file. */
  function Small(cell: Option<Thread>, write: Option<nat>, read: Option<nat>, writing: nat, end: bool): Memory {
    Memory(Buffer([None], 0, []), Locks([cell], write, read), Cursors(0, 0), Tokens(0, writing), Counters(0, 0, 0), end)
  }

  lemma ProducerOnward(c: Config, a: State, m: Memory, p: PPc, k: CPc, m': Memory, p': PPc)
    requires CanReach(System(c), a, State(m, [p], [k])) && k != CAsleep
    requires ActP(c, m, 0, p) == DoneP(m', p', true) || ActP(c, m, 0, p) == DoneP(m', p', false)
    ensures CanReach(System(c), a, State(m', [p'], [k]))
  {
    hide CanReach, ActP;
    var b := State(m, [p], [k]);
    var b' := Next(c, b, Move(Producer(0))).value;
    assert b'.prod == [p'] && b'.cons == [k];
    Onward(System(c), a, b, Move(Producer(0)), b');
  }

  lemma ConsumerOnward(c: Config, a: State, m: Memory, p: PPc, k: CPc, m': Memory, k': CPc)
    requires CanReach(System(c), a, State(m, [p], [k]))
    requires ActC(c, m, 0, k) == DoneC(m', k', false)
    ensures CanReach(System(c), a, State(m', [p], [k']))
  {
    hide CanReach;
    assert [k][0 := k'] == [k'];
    Onward(System(c), a, State(m, [p], [k]), Move(Consumer(0)), State(m', [p], [k']));
  }

  lemma SingleCell()
    ensures forall x: Option<Thread>, y: Option<Thread> :: [x][0 := y] == [y]
  {
  }

  lemma Initially(c: Config)
    ensures CanReach(System(c), Init(1, 1, 1), State(Small(None, None, None, 0, false), [PLockW], [CLockR]))
  {
    var s := Init(1, 1, 1);
    assert s.prod == [PLockW] && s.cons == [CLockR] && s.mem.buf.cells == [None] && s.mem.locks.cell == [None];
    assert Exec(System(c), s, []) == Some(s);
  }

  /** The producer finds the cell free and the file empty. */
  lemma ProducerSeesEnd(c: Config)
    requires c.file == []
    ensures CanReach(System(c), Init(1, 1, 1), State(Small(Some(Producer(0)), Some(0), None, 0, false), [PEofNotify], [CLockR]))
  {
    var s0 := Init(1, 1, 1);
    Initially(c);
    hide CanReach, Init;
    SingleCell();
    var m1, m2 := Small(None, Some(0), None, 0, false), Small(Some(Producer(0)), Some(0), None, 0, false);
    ProducerOnward(c, s0, Small(None, None, None, 0, false), PLockW, CLockR, m1, PLockCell);
    ProducerOnward(c, s0, m1, PLockCell, CLockR, m2, PTest);
    ProducerOnward(c, s0, m2, PTest, CLockR, m2, PRead);
    ProducerOnward(c, s0, m2, PRead, CLockR, m2, PEofNotify);
  }

  /** It announces the end before it sets end_time. */
  lemma ProducerAnnouncesEnd(c: Config)
    requires c.file == []
    ensures CanReach(System(c), Init(1, 1, 1),
                     State(Small(None, None, None, if c.sync.CondVars? then 0 else 1, false), [PSetEnd], [CLockR]))
  {
    var s0, n := Init(1, 1, 1), if c.sync.CondVars? then 0 else 1;
    ProducerSeesEnd(c);
    hide CanReach, Init;
    var m0, m1 := Small(Some(Producer(0)), Some(0), None, 0, false), Small(Some(Producer(0)), Some(0), None, n, false);
    ProducerOnward(c, s0, m0, PEofNotify, CLockR, m1, PEofUnlockCell);
    ProducerLeaves(c, s0, n);
  }

  lemma ProducerLeaves(c: Config, s0: State, n: nat)
    requires CanReach(System(c), s0, State(Small(Some(Producer(0)), Some(0), None, n, false), [PEofUnlockCell], [CLockR]))
    ensures CanReach(System(c), s0, State(Small(None, None, None, n, false), [PSetEnd], [CLockR]))
  {
    hide CanReach;
    SingleCell();
    var m1, m2 := Small(Some(Producer(0)), Some(0), None, n, false), Small(None, Some(0), None, n, false);
    ProducerOnward(c, s0, m1, PEofUnlockCell, CLockR, m2, PEofUnlockW);
    ProducerOnward(c, s0, m2, PEofUnlockW, CLockR, Small(None, None, None, n, false), PSetEnd);
  }

  /** A consumer that finds the cell NULL and end_time unset goes to sleep. */
  lemma ConsumerFallsAsleep(c: Config, s0: State, n: nat)
    requires CanReach(System(c), s0, State(Small(None, None, None, n, false), [PSetEnd], [CLockR]))
    ensures CanReach(System(c), s0, State(Small(None, None, Some(0), n, false), [PSetEnd], [CAsleep]))
  {
    hide CanReach;
    SingleCell();
    var m1, m2 := Small(None, None, Some(0), n, false), Small(Some(Consumer(0)), None, Some(0), n, false);
    ConsumerOnward(c, s0, Small(None, None, None, n, false), PSetEnd, CLockR, m1, CLockCell);
    ConsumerOnward(c, s0, m1, PSetEnd, CLockCell, m2, CTest);
    ConsumerOnward(c, s0, m2, PSetEnd, CTest, m2, CTestEnd);
    ConsumerOnward(c, s0, m2, PSetEnd, CTestEnd, m2, CWait);
    ConsumerOnward(c, s0, m2, PSetEnd, CWait, m1, CAsleep);
  }

  /** With semaphores it first spends the token of the last announcement, and sleeps again. */
  lemma TokenIsSpent(c: Config, s0: State)
    requires c.sync.Semaphores?
    requires CanReach(System(c), s0, State(Small(None, None, Some(0), 1, false), [PSetEnd], [CAsleep]))
    ensures CanReach(System(c), s0, State(Small(None, None, Some(0), 0, false), [PSetEnd], [CAsleep]))
  {
    hide CanReach;
    SingleCell();
    var m1, m2 := Small(None, None, Some(0), 0, false), Small(Some(Consumer(0)), None, Some(0), 0, false);
    ConsumerOnward(c, s0, Small(None, None, Some(0), 1, false), PSetEnd, CAsleep, m1, CRelock);
    ConsumerOnward(c, s0, m1, PSetEnd, CRelock, m2, CTest);
    ConsumerOnward(c, s0, m2, PSetEnd, CTest, m2, CTestEnd);
    ConsumerOnward(c, s0, m2, PSetEnd, CTestEnd, m2, CWait);
    ConsumerOnward(c, s0, m2, PSetEnd, CWait, m1, CAsleep);
  }

  /** Consumers need not return: in either version there is a run, with one thread on each side
      and an empty file, after which the consumer sleeps for good, because end_time is set only
      after the last announcement. */
  lemma ConsumerMaySleepForGood(c: Config)
    requires c.file == []
    ensures exists s :: CanReach(System(c), Init(1, 1, 1), s) && Stuck(c, s) && s.cons == [CAsleep]
  {
    var s0, n := Init(1, 1, 1), if c.sync.CondVars? then 0 else 1;
    ProducerAnnouncesEnd(c);
    ConsumerFallsAsleep(c, s0, n);
    if c.sync.Semaphores? {
      TokenIsSpent(c, s0);
    }
    var m := Small(None, None, Some(0), 0, false);
    var s := State(m.(endTime := true), [PDone], [CAsleep]);
    hide CanReach, Stuck, Next, Small, Init;
    EndComesTooLate(c);
    Onward(System(c), s0, State(m, [PSetEnd], [CAsleep]), Move(Producer(0)), s);
  }

  lemma EndComesTooLate(c: Config)
    ensures var m := Small(None, None, Some(0), 0, false);
            var s := State(m.(endTime := true), [PDone], [CAsleep]);
            Next(c, State(m, [PSetEnd], [CAsleep]), Move(Producer(0))) == Some(s) && Stuck(c, s)
  {
    assert [PSetEnd][0 := PDone] == [PDone];
  }
}
