/** The ring invariant and its preservation by every action. */
module RingInvariant {
  import opened Runs
  import opened Ring
  import opened DivMod

  // ---------- classes of program points ----------

  predicate HoldsWriteLock(pc: PPc) { !(pc.PLockW? || pc.PSetEnd? || pc.PDone?) }

  predicate HoldsReadLock(pc: CPc) { !(pc.CLockR? || pc.CDone?) }

  predicate HoldsCellP(pc: PPc) {
    pc.PTest? || pc.PWait? || pc.PRead? || pc.PStore? || pc.PCountLine? || pc.PNotify? || pc.PUnlockCell? ||
    pc.PEofNotify? || pc.PEofUnlockCell?
  }

  predicate HoldsCellC(pc: CPc) {
    pc.CTest? || pc.CTestEnd? || pc.CWait? || pc.CCount? || pc.CClear? || pc.CNotify? || pc.CUnlockCell? ||
    pc.CExitUnlockCell?
  }

  /** The line is in its cell but writing_pos has not moved on. */
  predicate LagsP(pc: PPc) { pc.PCountLine? || pc.PNotify? || pc.PUnlockCell? || pc.PInc? }

  predicate LagsC(pc: CPc) { pc.CNotify? || pc.CUnlockCell? || pc.CInc? }

  /** This producer has seen the end of the file. */
  predicate SawEof(pc: PPc) {
    pc.PEofNotify? || pc.PEofUnlockCell? || pc.PEofUnlockW? || pc.PSetEnd? || pc.PDone?
  }

  predicate Leaving(pc: CPc) { pc.CExitUnlockCell? || pc.CExitUnlockR? || pc.CDone? }

  /** Where a cursor stands against the line it has just handled. */
  datatype Phase = Even | Lag | Mid

  function PhaseP(pc: PPc): Phase { if LagsP(pc) then Lag else if pc.PMod? then Mid else Even }

  function PhaseC(pc: CPc): Phase { if LagsC(pc) then Lag else if pc.CMod? then Mid else Even }

  // ---------- the invariant on memory and the two threads inside the critical sections ----------
  // `w` is the program point of the producer holding write_lock (PLockW when nobody does),
  // `r` that of the consumer holding read_lock (CLockR when nobody does).

  function CellOwner(l: Locks, pos: Cursors, cellP: bool, cellC: bool, k: nat): Option<Thread> {
    if cellP && l.write.Some? && k == pos.w then Some(Producer(l.write.value))
    else if cellC && l.read.Some? && k == pos.r then Some(Consumer(l.read.value))
    else None
  }

  /** Every cell lock is held by exactly the thread that is between locking and unlocking it. */
  ghost predicate CellLocks(l: Locks, pos: Cursors, cellP: bool, cellC: bool) {
    && (forall k :: 0 <= k < |l.cell| ==> l.cell[k] == CellOwner(l, pos, cellP, cellC, k))
    && !(cellP && cellC && pos.w == pos.r)
  }

  function CursorAt(p: Phase, count: nat, n: nat): nat
    requires n > 0
  {
    match p
    case Even => Remainder(count, n)
    case Lag => if count == 0 then 0 else Remainder(count - 1, n)
    case Mid => if count == 0 then 0 else Remainder(count - 1, n) + 1
  }

  /** Each cursor is the slot of the next line, except while its one moving thread lags. */
  ghost predicate CursorsOk(b: Buffer, pos: Cursors, p: Phase, q: Phase) {
    && |b.cells| > 0
    && pos.w == CursorAt(p, b.stored, |b.cells|)
    && pos.r == CursorAt(q, |b.taken|, |b.cells|)
    && (p.Even? || b.stored > 0)
    && (q.Even? || |b.taken| > 0)
  }

  /** Lines |taken| up to stored sit in their slots; every other cell is NULL. */
  ghost predicate CellContents(c: Config, b: Buffer) {
    var n := |b.cells|;
    && n > 0
    && |b.taken| <= b.stored <= |b.taken| + n
    && b.stored <= |c.file|
    && (forall k :: |b.taken| <= k < |b.taken| + n ==>
          b.cells[Remainder(k, n)] == if k < b.stored then Some(c.file[k]) else None)
    && b.taken == c.file[..|b.taken|]
  }

  /** The search the options ask for: shorter than, exactly as long as, or longer than L. */
  predicate Satisfies(c: Config, line: string) {
    if c.mode == 0 then |line| < c.limit
    else if c.mode == 1 then |line| == c.limit
    else c.mode == 2 && |line| > c.limit
  }

  /** The number of lines that satisfy the search. */
  ghost function Matching(c: Config, lines: seq<string>): nat {
    if lines == [] then 0
    else Matching(c, lines[..|lines| - 1]) + if Satisfies(c, lines[|lines| - 1]) then 1 else 0
  }

  /** The counters are right up to the one line the writer, or the reader, is busy with. */
  ghost predicate CountersOk(c: Config, b: Buffer, k: Counters, inHand: Option<string>, uncounted: bool, counted: bool) {
    && k.read == b.stored + (if inHand.Some? then 1 else 0)
    && k.read <= |c.file|
    && (inHand.Some? ==> inHand.value == c.file[b.stored])
    && b.stored == k.lineNr + (if uncounted then 1 else 0)
    && |b.taken| + (if counted then 1 else 0) <= |c.file|
    && k.found == Matching(c, c.file[..|b.taken| + if counted then 1 else 0])
  }

  function InHand(w: PPc): Option<string> { if w.PStore? then Some(w.line) else None }

  /** What a thread has learnt about its cell stays true while it holds the cell lock. */
  ghost predicate Tested(b: Buffer, w: PPc, r: CPc) {
    && (w.PRead? || w.PStore? ==> b.stored < |b.taken| + |b.cells|)
    && (w.PWait? ==> b.stored == |b.taken| + |b.cells|)
    && (r.CTestEnd? || r.CWait? || r.CExitUnlockCell? ==> b.stored == |b.taken|)
    && (r.CCount? || r.CClear? ==> |b.taken| < b.stored)
  }

  /** No wakeup is lost: a sleeper without a token still waits for the change, or the
      thread that made the change has yet to announce it. */
  ghost predicate NoLostWakeup(c: Config, b: Buffer, t: Tokens, w: PPc, r: CPc) {
    && (w.PAsleep? && t.reading == 0 ==> b.stored == |b.taken| + |b.cells| || r.CNotify?)
    && (r.CAsleep? && t.writing == 0 ==> b.stored == |b.taken| || w.PCountLine? || w.PNotify?)
    && (c.sync.CondVars? ==> t == Tokens(0, 0))
  }

  /** A thread that saw the end of the file, wherever it is now, was right. */
  ghost predicate KnowsP(c: Config, b: Buffer, endTime: bool, pc: PPc) {
    && (SawEof(pc) ==> b.stored == |c.file|)
    && (pc.PDone? ==> endTime)
  }

  ghost predicate KnowsC(c: Config, b: Buffer, pc: CPc) {
    Leaving(pc) ==> b.stored == |b.taken| == |c.file|
  }

  ghost predicate Core(c: Config, m: Memory, w: PPc, r: CPc) {
    && |m.locks.cell| == |m.buf.cells|
    && (HoldsWriteLock(w) <==> m.locks.write.Some?)
    && (HoldsReadLock(r) <==> m.locks.read.Some?)
    && CellLocks(m.locks, m.pos, HoldsCellP(w), HoldsCellC(r))
    && CursorsOk(m.buf, m.pos, PhaseP(w), PhaseC(r))
    && CellContents(c, m.buf)
    && CountersOk(c, m.buf, m.count, InHand(w), w.PCountLine?, r.CClear?)
    && Tested(m.buf, w, r)
    && NoLostWakeup(c, m.buf, m.tokens, w, r)
    && (m.endTime ==> m.buf.stored == |c.file|)
    && KnowsP(c, m.buf, m.endTime, w)
    && KnowsC(c, m.buf, r)
  }

  /** The cell under a cursor that does not lag tells whether the ring is full, or empty. */
  lemma CellUnderCursor(c: Config, b: Buffer)
    requires CellContents(c, b)
    ensures b.cells[Remainder(b.stored, |b.cells|)] == None <==> b.stored < |b.taken| + |b.cells|
    ensures b.cells[Remainder(|b.taken|, |b.cells|)] == if |b.taken| < b.stored then Some(c.file[|b.taken|]) else None
  {
    if b.stored == |b.taken| + |b.cells| {
      RemainderPeriod(|b.taken|, |b.cells|);
    }
  }

  lemma DifferentCells(l: Locks, pos: Cursors, cellP: bool, cellC: bool)
    requires CellLocks(l, pos, cellP, cellC)
    ensures cellP && cellC ==> pos.w != pos.r
  {
  }

  lemma SizesOf(c: Config, b: Buffer)
    requires CellContents(c, b)
    ensures |b.taken| <= b.stored <= |c.file| && b.stored <= |b.taken| + |b.cells| && |b.cells| > 0
  {
  }

  // ---------- one action of the writer ----------

  /** The program point the lock holder is at after the action. */
  function ActiveP(pc: PPc): PPc { if HoldsWriteLock(pc) then pc else PLockW }

  function AfterP(wakes: bool, r: CPc): CPc { if wakes then WokenC(r) else r }

  ghost predicate WriterActs(c: Config, m: Memory, i: nat, w: PPc, e: EffectP) {
    (m.locks.write.Some? ==> m.locks.write == Some(i)) && e.DoneP? && ActP(c, m, i, w) == e
  }

  /** What the writer's action must keep. */
  ghost predicate KeptP(c: Config, e: EffectP, r: CPc) {
    e.DoneP? && Core(c, e.mem, ActiveP(e.pc), AfterP(e.wakes, r)) && KnowsP(c, e.mem.buf, e.mem.endTime, e.pc)
  }

  lemma WriterEnters(c: Config, m: Memory, i: nat, w: PPc, r: CPc, e: EffectP)
    requires Core(c, m, w, r) && WriterActs(c, m, i, w, e)
    requires w.PLockW? || w.PLockCell? || w.PRelock? || w.PAsleep?
    ensures KeptP(c, e, r)
  {
    hide CursorsOk, CellContents, CountersOk, Remainder;
  }

  lemma CursorsInRange(b: Buffer, pos: Cursors, p: Phase, q: Phase)
    requires CursorsOk(b, pos, p, q)
    ensures !p.Mid? ==> pos.w < |b.cells|
    ensures !q.Mid? ==> pos.r < |b.cells|
  {
  }

  lemma UnlockedP(l: Locks, pos: Cursors, holdsC: bool)
    requires CellLocks(l, pos, true, holdsC) && pos.w < |l.cell|
    ensures CellLocks(l.(cell := l.cell[pos.w := None]), pos, false, holdsC)
  {
  }

  lemma WriterUnlocks(c: Config, m: Memory, i: nat, w: PPc, r: CPc, e: EffectP)
    requires Core(c, m, w, r) && WriterActs(c, m, i, w, e)
    requires w.PWait? || w.PUnlockCell? || w.PEofUnlockCell?
    ensures KeptP(c, e, r)
  {
    hide CellLocks, CursorsOk, CellContents, CountersOk, Remainder;
    CursorsInRange(m.buf, m.pos, PhaseP(w), PhaseC(r));
    UnlockedP(m.locks, m.pos, HoldsCellC(r));
  }

  lemma WriterLeaves(c: Config, m: Memory, i: nat, w: PPc, r: CPc, e: EffectP)
    requires Core(c, m, w, r) && WriterActs(c, m, i, w, e)
    requires w.PUnlockW? || w.PEofUnlockW?
    ensures KeptP(c, e, r)
  {
    hide CursorsOk, CellContents, CountersOk, Remainder;
  }

  lemma WriterTests(c: Config, m: Memory, i: nat, w: PPc, r: CPc, e: EffectP)
    requires Core(c, m, w, r) && WriterActs(c, m, i, w, e) && w.PTest?
    ensures KeptP(c, e, r)
  {
    CellUnderCursor(c, m.buf);
    hide CellLocks, CellContents, CountersOk, Remainder;
  }

  lemma WriterReads(c: Config, m: Memory, i: nat, w: PPc, r: CPc, e: EffectP)
    requires Core(c, m, w, r) && WriterActs(c, m, i, w, e)
    requires w.PRead? || w.PCountLine?
    ensures KeptP(c, e, r)
  {
    hide CellLocks, CursorsOk, Remainder, Matching;
  }

  /** Putting the next line of the file into its slot leaves every other cell as it should be. */
  lemma StoreNext(c: Config, b: Buffer, b': Buffer)
    requires CellContents(c, b) && b.stored < |b.taken| + |b.cells| && b.stored < |c.file|
    requires b' == b.(cells := b.cells[Remainder(b.stored, |b.cells|) := Some(c.file[b.stored])], stored := b.stored + 1)
    ensures CellContents(c, b')
  {
    var n := |b.cells|;
    forall k | |b.taken| <= k < |b.taken| + n
      ensures b'.cells[Remainder(k, n)] == if k < b'.stored then Some(c.file[k]) else None
    {
      if k < b.stored {
        RemainderInjective(k, b.stored, n);
      } else if b.stored < k {
        RemainderInjective(b.stored, k, n);
      }
    }
  }

  lemma CountersAfterStore(c: Config, b: Buffer, b': Buffer, k: Counters, line: string, counted: bool)
    requires CountersOk(c, b, k, Some(line), false, counted) && b'.stored == b.stored + 1 && b'.taken == b.taken
    ensures b.stored < |c.file| && line == c.file[b.stored]
    ensures CountersOk(c, b', k, None, true, counted)
  {
  }

  lemma WriterStores(c: Config, m: Memory, i: nat, w: PPc, r: CPc, e: EffectP)
    requires Core(c, m, w, r) && WriterActs(c, m, i, w, e) && w.PStore?
    ensures KeptP(c, e, r)
  {
    hide CellLocks, CellContents, CountersOk, Remainder;
    CursorsInRange(m.buf, m.pos, PhaseP(w), PhaseC(r));
    DifferentCells(m.locks, m.pos, true, HoldsCellC(r));
    SizesOf(c, m.buf);
    CountersAfterStore(c, m.buf, e.mem.buf, m.count, w.line, r.CClear?);
    StoreNext(c, m.buf, e.mem.buf);
  }

  lemma WriterAnnounces(c: Config, m: Memory, i: nat, w: PPc, r: CPc, e: EffectP)
    requires Core(c, m, w, r) && WriterActs(c, m, i, w, e)
    requires w.PNotify? || w.PEofNotify?
    ensures KeptP(c, e, r)
  {
    hide CellLocks, CursorsOk, CellContents, CountersOk;
  }

  lemma WriterAdvances(c: Config, m: Memory, i: nat, w: PPc, r: CPc, e: EffectP)
    requires Core(c, m, w, r) && WriterActs(c, m, i, w, e)
    requires w.PInc? || w.PMod?
    ensures KeptP(c, e, r)
  {
    hide CellContents, CountersOk, Remainder;
    if w.PMod? {
      RemainderNext(m.buf.stored - 1, |m.buf.cells|);
    }
  }

  // ---------- one action of the reader ----------

  function ActiveC(pc: CPc): CPc { if HoldsReadLock(pc) then pc else CLockR }

  function AfterC(wakes: bool, w: PPc): PPc { if wakes then WokenP(w) else w }

  ghost predicate ReaderActs(c: Config, m: Memory, i: nat, r: CPc, e: EffectC) {
    (m.locks.read.Some? ==> m.locks.read == Some(i)) && e.DoneC? && ActC(c, m, i, r) == e
  }

  /** What the reader's action must keep. */
  ghost predicate KeptC(c: Config, e: EffectC, w: PPc) {
    e.DoneC? && Core(c, e.mem, AfterC(e.wakes, w), ActiveC(e.pc)) && KnowsC(c, e.mem.buf, e.pc)
  }

  lemma ReaderEnters(c: Config, m: Memory, i: nat, w: PPc, r: CPc, e: EffectC)
    requires Core(c, m, w, r) && ReaderActs(c, m, i, r, e)
    requires r.CLockR? || r.CLockCell? || r.CRelock? || r.CAsleep?
    ensures KeptC(c, e, w)
  {
    hide CursorsOk, CellContents, CountersOk, Remainder;
  }

  lemma UnlockedC(l: Locks, pos: Cursors, holdsP: bool)
    requires CellLocks(l, pos, holdsP, true) && pos.r < |l.cell|
    ensures CellLocks(l.(cell := l.cell[pos.r := None]), pos, holdsP, false)
  {
  }

  lemma ReaderUnlocks(c: Config, m: Memory, i: nat, w: PPc, r: CPc, e: EffectC)
    requires Core(c, m, w, r) && ReaderActs(c, m, i, r, e)
    requires r.CWait? || r.CUnlockCell? || r.CExitUnlockCell?
    ensures KeptC(c, e, w)
  {
    hide CellLocks, CursorsOk, CellContents, CountersOk, Remainder;
    CursorsInRange(m.buf, m.pos, PhaseP(w), PhaseC(r));
    UnlockedC(m.locks, m.pos, HoldsCellP(w));
  }

  lemma ReaderLeaves(c: Config, m: Memory, i: nat, w: PPc, r: CPc, e: EffectC)
    requires Core(c, m, w, r) && ReaderActs(c, m, i, r, e)
    requires r.CUnlockR? || r.CExitUnlockR?
    ensures KeptC(c, e, w)
  {
    hide CursorsOk, CellContents, CountersOk, Remainder;
  }

  lemma ReaderTests(c: Config, m: Memory, i: nat, w: PPc, r: CPc, e: EffectC)
    requires Core(c, m, w, r) && ReaderActs(c, m, i, r, e)
    requires r.CTest? || r.CTestEnd?
    ensures KeptC(c, e, w)
  {
    CellUnderCursor(c, m.buf);
    hide CellLocks, CellContents, CountersOk, Remainder;
  }

  lemma CountOne(c: Config, b: Buffer, k: Counters, inHand: Option<string>, uncounted: bool)
    requires CountersOk(c, b, k, inHand, uncounted, false)
    requires |b.taken| < b.stored <= |c.file|
    ensures CountersOk(c, b, k.(found := k.found + Found(c, c.file[|b.taken|])), inHand, uncounted, true)
  {
    var t := |b.taken|;
    assert c.file[..t + 1][..t] == c.file[..t];
  }

  lemma ReaderCounts(c: Config, m: Memory, i: nat, w: PPc, r: CPc, e: EffectC)
    requires Core(c, m, w, r) && ReaderActs(c, m, i, r, e) && r.CCount?
    ensures KeptC(c, e, w)
  {
    hide CellLocks, CellContents, CountersOk, Remainder, Matching, Found;
    SizesOf(c, m.buf);
    CellUnderCursor(c, m.buf);
    CountOne(c, m.buf, m.count, InHand(w), w.PCountLine?);
  }

  /** Taking the oldest line out leaves the ring holding exactly the others. */
  lemma ClearOldest(c: Config, b: Buffer, b': Buffer)
    requires CellContents(c, b) && |b.taken| < b.stored
    requires b' == b.(cells := b.cells[Remainder(|b.taken|, |b.cells|) := None], taken := b.taken + [c.file[|b.taken|]])
    ensures CellContents(c, b')
  {
    var t, n := |b.taken|, |b.cells|;
    assert b'.taken == c.file[..t + 1];
    forall k | t + 1 <= k < t + 1 + n
      ensures b'.cells[Remainder(k, n)] == if k < b.stored then Some(c.file[k]) else None
    {
      if k < t + n {
        RemainderInjective(t, k, n);
      } else {
        RemainderPeriod(t, n);
      }
    }
  }

  lemma CountersAfterClear(c: Config, b: Buffer, b': Buffer, k: Counters, inHand: Option<string>, uncounted: bool)
    requires CountersOk(c, b, k, inHand, uncounted, true) && b'.stored == b.stored && |b'.taken| == |b.taken| + 1
    ensures CountersOk(c, b', k, inHand, uncounted, false)
  {
  }

  lemma ReaderClears(c: Config, m: Memory, i: nat, w: PPc, r: CPc, e: EffectC)
    requires Core(c, m, w, r) && ReaderActs(c, m, i, r, e) && r.CClear?
    ensures KeptC(c, e, w)
  {
    hide CellLocks, CellContents, CountersOk, Remainder;
    DifferentCells(m.locks, m.pos, HoldsCellP(w), true);
    SizesOf(c, m.buf);
    CellUnderCursor(c, m.buf);
    ClearOldest(c, m.buf, e.mem.buf);
    CountersAfterClear(c, m.buf, e.mem.buf, m.count, InHand(w), w.PCountLine?);
  }

  lemma ReaderAnnounces(c: Config, m: Memory, i: nat, w: PPc, r: CPc, e: EffectC)
    requires Core(c, m, w, r) && ReaderActs(c, m, i, r, e) && r.CNotify?
    ensures KeptC(c, e, w)
  {
    hide CellLocks, CursorsOk, CellContents, CountersOk;
  }

  lemma ReaderAdvances(c: Config, m: Memory, i: nat, w: PPc, r: CPc, e: EffectC)
    requires Core(c, m, w, r) && ReaderActs(c, m, i, r, e)
    requires r.CInc? || r.CMod?
    ensures KeptC(c, e, w)
  {
    hide CellContents, CountersOk, Remainder;
    if r.CMod? {
      RemainderNext(|m.buf.taken| - 1, |m.buf.cells|);
    }
  }
}
