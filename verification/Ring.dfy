/** The ring of lines shared by P producers and K consumers, in its two versions:
    mutexes with condition variables, and semaphores.  Both run the same code around
    the same cells; `Sync` selects how a thread waits for and announces a change.

    Every action is one access to shared memory or one library call of one thread.
    A blocked thread has no action.  History fields (`stored`, `taken`) record what
    has happened and are never read by a thread. */
module Ring {
  import opened Runs
  import opened DivMod

  datatype Sync = CondVars | Semaphores

  /** Where a producer is in its routine: the call or access it makes next. */
  datatype PPc =
    | PLockW                  // lock write_lock
    | PLockCell               // lock buffer_lock[writing_pos]
    | PTest                   // is global_buffer[writing_pos] taken?
    | PWait                   // cond_wait gives the cell lock up / sem_post(cell lock)
    | PAsleep                 // on someone_is_reading
    | PRelock                 // lock buffer_lock[writing_pos] again
    | PRead                   // getline
    | PStore(line: string)    // global_buffer[writing_pos] = line
    | PCountLine              // line_nr++
    | PNotify                 // broadcast / post someone_is_writing
    | PUnlockCell
    | PInc                    // ++writing_pos
    | PMod                    // writing_pos %= N
    | PUnlockW
    | PEofNotify | PEofUnlockCell | PEofUnlockW
    | PSetEnd                 // end_time = 1
    | PDone

  datatype CPc =
    | CLockR | CLockCell
    | CTest                   // is global_buffer[reading_pos] NULL?
    | CTestEnd                // is end_time set?
    | CWait | CAsleep | CRelock
    | CCount                  // the three strlen tests
    | CClear                  // global_buffer[reading_pos] = NULL
    | CNotify                 // broadcast / post someone_is_reading
    | CUnlockCell | CInc | CMod | CUnlockR
    | CExitUnlockCell | CExitUnlockR
    | CDone

  datatype Thread = Producer(id: nat) | Consumer(id: nat)

  /** What the run does not change: the options and the input file. */
  datatype Config = Config(sync: Sync, file: seq<string>, limit: nat, mode: int)  // limit is L, mode is search_mode

  /** global_buffer, with the history of what passed through it. */
  datatype Buffer = Buffer(cells: seq<Option<string>>, stored: nat, taken: seq<string>)

  /** buffer_lock, write_lock and read_lock. */
  datatype Locks = Locks(cell: seq<Option<Thread>>, write: Option<nat>, read: Option<nat>)

  /** writing_pos and reading_pos. */
  datatype Cursors = Cursors(w: nat, r: nat)

  /** The values of someone_is_reading and someone_is_writing as semaphores. */
  datatype Tokens = Tokens(reading: nat, writing: nat)

  /** Lines getline has returned, line_nr and line_counter. */
  datatype Counters = Counters(read: nat, lineNr: nat, found: nat)

  datatype Memory = Memory(buf: Buffer, locks: Locks, pos: Cursors, tokens: Tokens, count: Counters, endTime: bool)

  datatype State = State(mem: Memory, prod: seq<PPc>, cons: seq<CPc>)

  /** What one action does: nothing while the thread is blocked; otherwise the new memory, the
      thread's next program point, and whether it wakes the sleepers of the other side. */
  datatype EffectP = BlockedP | DoneP(mem: Memory, pc: PPc, wakes: bool)
  datatype EffectC = BlockedC | DoneC(mem: Memory, pc: CPc, wakes: bool)

  datatype Action =
    | Move(t: Thread)
    | Spurious(t: Thread)           // a wakeup nobody announced

  // ---------- one action of one thread ----------

  predicate CellFree(l: Locks, k: nat) { k < |l.cell| && l.cell[k] == None }

  function LockCell(m: Memory, k: nat, t: Thread): Memory
    requires CellFree(m.locks, k)
  {
    m.(locks := m.locks.(cell := m.locks.cell[k := Some(t)]))
  }

  function UnlockCell(m: Memory, k: nat): Memory {
    if k < |m.locks.cell| then m.(locks := m.locks.(cell := m.locks.cell[k := None])) else m
  }

  /** Producer i at program point pc. */
  function ActP(c: Config, m: Memory, i: nat, pc: PPc): EffectP {
    match pc
    case PLockW =>
      if m.locks.write == None then DoneP(m.(locks := m.locks.(write := Some(i))), PLockCell, false) else BlockedP
    case PLockCell =>
      if CellFree(m.locks, m.pos.w) then DoneP(LockCell(m, m.pos.w, Producer(i)), PTest, false) else BlockedP
    case PTest =>
      if m.pos.w < |m.buf.cells|
      then DoneP(m, if m.buf.cells[m.pos.w] != None then PWait else PRead, false)
      else BlockedP
    case PWait => DoneP(UnlockCell(m, m.pos.w), PAsleep, false)
    case PAsleep =>
      if c.sync == Semaphores && m.tokens.reading > 0
      then DoneP(m.(tokens := m.tokens.(reading := m.tokens.reading - 1)), PRelock, false)
      else BlockedP
    case PRelock =>
      if CellFree(m.locks, m.pos.w) then DoneP(LockCell(m, m.pos.w, Producer(i)), PTest, false) else BlockedP
    case PRead =>
      if m.count.read < |c.file|
      then DoneP(m.(count := m.count.(read := m.count.read + 1)), PStore(c.file[m.count.read]), false)
      else DoneP(m, PEofNotify, false)
    case PStore(line) =>
      if m.pos.w < |m.buf.cells|
      then DoneP(m.(buf := m.buf.(cells := m.buf.cells[m.pos.w := Some(line)], stored := m.buf.stored + 1)), PCountLine, false)
      else BlockedP
    case PCountLine => DoneP(m.(count := m.count.(lineNr := m.count.lineNr + 1)), PNotify, false)
    case PNotify => AnnounceWrite(c, m, PUnlockCell)
    case PUnlockCell => DoneP(UnlockCell(m, m.pos.w), PInc, false)
    case PInc => DoneP(m.(pos := m.pos.(w := m.pos.w + 1)), PMod, false)
    case PMod =>
      if |m.buf.cells| > 0
      then DoneP(m.(pos := m.pos.(w := Remainder(m.pos.w, |m.buf.cells|))), PUnlockW, false)
      else BlockedP
    case PUnlockW => DoneP(m.(locks := m.locks.(write := None)), PLockW, false)
    case PEofNotify => AnnounceWrite(c, m, PEofUnlockCell)
    case PEofUnlockCell => DoneP(UnlockCell(m, m.pos.w), PEofUnlockW, false)
    case PEofUnlockW => DoneP(m.(locks := m.locks.(write := None)), PSetEnd, false)
    case PSetEnd => DoneP(m.(endTime := true), PDone, false)
    case PDone => BlockedP
  }

  /** Announce on someone_is_writing: a broadcast wakes, a post adds a token. */
  function AnnounceWrite(c: Config, m: Memory, pc: PPc): EffectP {
    match c.sync
    case CondVars => DoneP(m, pc, true)
    case Semaphores => DoneP(m.(tokens := m.tokens.(writing := m.tokens.writing + 1)), pc, false)
  }

  /** What the three strlen tests add to line_counter. */
  function Found(c: Config, line: string): nat {
    (if |line| < c.limit && c.mode == 0 then 1 else 0) +
    (if |line| == c.limit && c.mode == 1 then 1 else 0) +
    (if |line| > c.limit && c.mode == 2 then 1 else 0)
  }

  /** Consumer i at program point pc. */
  function ActC(c: Config, m: Memory, i: nat, pc: CPc): EffectC {
    match pc
    case CLockR =>
      if m.locks.read == None then DoneC(m.(locks := m.locks.(read := Some(i))), CLockCell, false) else BlockedC
    case CLockCell =>
      if CellFree(m.locks, m.pos.r) then DoneC(LockCell(m, m.pos.r, Consumer(i)), CTest, false) else BlockedC
    case CTest =>
      if m.pos.r < |m.buf.cells|
      then DoneC(m, if m.buf.cells[m.pos.r] == None then CTestEnd else CCount, false)
      else BlockedC
    case CTestEnd => DoneC(m, if m.endTime then CExitUnlockCell else CWait, false)
    case CWait => DoneC(UnlockCell(m, m.pos.r), CAsleep, false)
    case CAsleep =>
      if c.sync == Semaphores && m.tokens.writing > 0
      then DoneC(m.(tokens := m.tokens.(writing := m.tokens.writing - 1)), CRelock, false)
      else BlockedC
    case CRelock =>
      if CellFree(m.locks, m.pos.r) then DoneC(LockCell(m, m.pos.r, Consumer(i)), CTest, false) else BlockedC
    case CCount =>
      if m.pos.r < |m.buf.cells| && m.buf.cells[m.pos.r].Some?
      then DoneC(m.(count := m.count.(found := m.count.found + Found(c, m.buf.cells[m.pos.r].value))), CClear, false)
      else BlockedC
    case CClear =>
      if m.pos.r < |m.buf.cells| && m.buf.cells[m.pos.r].Some?
      then DoneC(m.(buf := m.buf.(cells := m.buf.cells[m.pos.r := None],
                                  taken := m.buf.taken + [m.buf.cells[m.pos.r].value])), CNotify, false)
      else BlockedC
    case CNotify => AnnounceRead(c, m, CUnlockCell)
    case CUnlockCell => DoneC(UnlockCell(m, m.pos.r), CInc, false)
    case CInc => DoneC(m.(pos := m.pos.(r := m.pos.r + 1)), CMod, false)
    case CMod =>
      if |m.buf.cells| > 0
      then DoneC(m.(pos := m.pos.(r := Remainder(m.pos.r, |m.buf.cells|))), CUnlockR, false)
      else BlockedC
    case CUnlockR => DoneC(m.(locks := m.locks.(read := None)), CLockR, false)
    case CExitUnlockCell => DoneC(UnlockCell(m, m.pos.r), CExitUnlockR, false)
    case CExitUnlockR => DoneC(m.(locks := m.locks.(read := None)), CDone, false)
    case CDone => BlockedC
  }

  /** Announce on someone_is_reading. */
  function AnnounceRead(c: Config, m: Memory, pc: CPc): EffectC {
    match c.sync
    case CondVars => DoneC(m, pc, true)
    case Semaphores => DoneC(m.(tokens := m.tokens.(reading := m.tokens.reading + 1)), pc, false)
  }

  // ---------- the whole system ----------

  function WokenP(pc: PPc): PPc { if pc == PAsleep then PRelock else pc }

  function WokenC(pc: CPc): CPc { if pc == CAsleep then CRelock else pc }

  function Next(c: Config, s: State, a: Action): Option<State> {
    match a
    case Move(Producer(i)) =>
      if i >= |s.prod| then None
      else
        (match ActP(c, s.mem, i, s.prod[i])
         case BlockedP => None
         case DoneP(m, pc, wakes) =>
           Some(State(m, s.prod[i := pc],
                      if wakes then seq(|s.cons|, j requires 0 <= j < |s.cons| => WokenC(s.cons[j])) else s.cons)))
    case Move(Consumer(i)) =>
      if i >= |s.cons| then None
      else
        (match ActC(c, s.mem, i, s.cons[i])
         case BlockedC => None
         case DoneC(m, pc, wakes) =>
           Some(State(m,
                      if wakes then seq(|s.prod|, j requires 0 <= j < |s.prod| => WokenP(s.prod[j])) else s.prod,
                      s.cons[i := pc])))
    case Spurious(Producer(i)) =>
      if c.sync == CondVars && i < |s.prod| && s.prod[i] == PAsleep
      then Some(s.(prod := s.prod[i := PRelock])) else None
    case Spurious(Consumer(i)) =>
      if c.sync == CondVars && i < |s.cons| && s.cons[i] == CAsleep
      then Some(s.(cons := s.cons[i := CRelock])) else None
  }

  /** What main sets up for P producers, K consumers and N cells. */
  function Init(P: nat, K: nat, N: nat): State {
    State(Memory(Buffer(seq(N, _ => None), 0, []), Locks(seq(N, _ => None), None, None),
                 Cursors(0, 0), Tokens(0, 0), Counters(0, 0, 0), false),
          seq(P, _ => PLockW), seq(K, _ => CLockR))
  }
}
