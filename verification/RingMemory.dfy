/** The ring program's shared variables as they lie in memory, changed in place: each method
    performs one action of one thread, and its result is the one the step function gives. */
module RingMemory {
  import opened Runs
  import opened DivMod
  import opened Ring
  import RingInvariant
  import RingSystem
  import RingTheorems

  class Shared {
    const global_buffer: array<Option<string>>
    const buffer_lock: array<Option<Thread>>
    var write_lock: Option<nat>
    var read_lock: Option<nat>
    var writing_pos: nat
    var reading_pos: nat
    var reading: nat            // value of someone_is_reading
    var writing: nat            // value of someone_is_writing
    var lines_read: nat         // where getline stands in the file
    var line_nr: nat
    var line_counter: nat
    var end_time: bool
    ghost var stored: nat
    ghost var taken: seq<string>

    constructor (N: nat)
      ensures fresh(global_buffer) && fresh(buffer_lock) && View() == Init(0, 0, N).mem
    {
      global_buffer := new Option<string>[N](_ => None);
      buffer_lock := new Option<Thread>[N](_ => None);
      write_lock, read_lock := None, None;
      writing_pos, reading_pos, reading, writing := 0, 0, 0, 0;
      lines_read, line_nr, line_counter, end_time := 0, 0, 0, false;
      stored, taken := 0, [];
      new;
      assert global_buffer[..] == seq(N, _ => None) && buffer_lock[..] == seq(N, _ => None);
    }

    ghost function View(): Memory
      reads this, global_buffer, buffer_lock
    {
      Memory(Buffer(global_buffer[..], stored, taken), Locks(buffer_lock[..], write_lock, read_lock),
             Cursors(writing_pos, reading_pos), Tokens(reading, writing),
             Counters(lines_read, line_nr, line_counter), end_time)
    }

    /** Lock cell k for thread t, or find it locked. */
    method TryLockCell(k: nat, t: Thread) returns (ok: bool)
      modifies buffer_lock
      ensures ok == CellFree(old(View()).locks, k)
      ensures View() == if ok then LockCell(old(View()), k, t) else old(View())
    {
      ok := k < buffer_lock.Length && buffer_lock[k] == None;
      if ok { buffer_lock[k] := Some(t); }
    }

    method FreeCell(k: nat)
      modifies buffer_lock
      ensures View() == UnlockCell(old(View()), k)
    {
      if k < buffer_lock.Length { buffer_lock[k] := None; }
    }

    /** The step of a producer that deals with locks and waiting. */
    method ProducerSyncs(c: Config, i: nat, pc: PPc) returns (ok: bool, pc': PPc, wakes: bool)
      requires !(pc.PTest? || pc.PRead? || pc.PStore? || pc.PCountLine? || pc.PInc? || pc.PMod? || pc.PSetEnd? || pc.PDone?)
      modifies this, buffer_lock
      ensures !ok ==> ActP(c, old(View()), i, pc) == BlockedP && View() == old(View())
      ensures ok ==> ActP(c, old(View()), i, pc) == DoneP(View(), pc', wakes)
    {
      ok, pc', wakes := true, pc, false;
      match pc
      case PLockW =>
        if write_lock == None { write_lock := Some(i); pc' := PLockCell; } else { ok := false; }
      case PLockCell | PRelock =>
        ok := TryLockCell(writing_pos, Producer(i));
        pc' := PTest;
      case PWait =>
        FreeCell(writing_pos);
        pc' := PAsleep;
      case PAsleep =>
        if c.sync == Semaphores && reading > 0 { reading := reading - 1; pc' := PRelock; } else { ok := false; }
      case PNotify =>
        if c.sync == CondVars { wakes := true; } else { writing := writing + 1; }
        pc' := PUnlockCell;
      case PEofNotify =>
        if c.sync == CondVars { wakes := true; } else { writing := writing + 1; }
        pc' := PEofUnlockCell;
      case PUnlockCell =>
        FreeCell(writing_pos);
        pc' := PInc;
      case PEofUnlockCell =>
        FreeCell(writing_pos);
        pc' := PEofUnlockW;
      case PUnlockW =>
        write_lock := None;
        pc' := PLockW;
      case PEofUnlockW =>
        write_lock := None;
        pc' := PSetEnd;
    }

    /** The step of a producer on the buffer, the cursor, the counters or the flag. */
    method ProducerWorks(c: Config, i: nat, pc: PPc) returns (ok: bool, pc': PPc, wakes: bool)
      requires pc.PTest? || pc.PRead? || pc.PStore? || pc.PCountLine? || pc.PInc? || pc.PMod? || pc.PSetEnd? || pc.PDone?
      modifies this, global_buffer
      ensures !ok ==> ActP(c, old(View()), i, pc) == BlockedP && View() == old(View())
      ensures ok ==> ActP(c, old(View()), i, pc) == DoneP(View(), pc', wakes)
    {
      ok, pc', wakes := true, pc, false;
      match pc
      case PTest =>
        if writing_pos < global_buffer.Length {
          pc' := if global_buffer[writing_pos] != None then PWait else PRead;
        } else { ok := false; }
      case PRead =>
        if lines_read < |c.file| { pc' := PStore(c.file[lines_read]); lines_read := lines_read + 1; } else { pc' := PEofNotify; }
      case PStore(line) =>
        if writing_pos < global_buffer.Length {
          global_buffer[writing_pos] := Some(line);
          stored := stored + 1;
          pc' := PCountLine;
        } else { ok := false; }
      case PCountLine =>
        line_nr := line_nr + 1;
        pc' := PNotify;
      case PInc =>
        writing_pos := writing_pos + 1;
        pc' := PMod;
      case PMod =>
        if global_buffer.Length > 0 {
          RemainderIsMod(writing_pos, global_buffer.Length);
          writing_pos := writing_pos % global_buffer.Length;
          pc' := PUnlockW;
        } else { ok := false; }
      case PSetEnd =>
        end_time := true;
        pc' := PDone;
      case PDone => ok := false;
    }

    method ConsumerSyncs(c: Config, i: nat, pc: CPc) returns (ok: bool, pc': CPc, wakes: bool)
      requires !(pc.CTest? || pc.CTestEnd? || pc.CCount? || pc.CClear? || pc.CInc? || pc.CMod? || pc.CDone?)
      modifies this, buffer_lock
      ensures !ok ==> ActC(c, old(View()), i, pc) == BlockedC && View() == old(View())
      ensures ok ==> ActC(c, old(View()), i, pc) == DoneC(View(), pc', wakes)
    {
      ok, pc', wakes := true, pc, false;
      match pc
      case CLockR =>
        if read_lock == None { read_lock := Some(i); pc' := CLockCell; } else { ok := false; }
      case CLockCell | CRelock =>
        ok := TryLockCell(reading_pos, Consumer(i));
        pc' := CTest;
      case CWait =>
        FreeCell(reading_pos);
        pc' := CAsleep;
      case CAsleep =>
        if c.sync == Semaphores && writing > 0 { writing := writing - 1; pc' := CRelock; } else { ok := false; }
      case CNotify =>
        if c.sync == CondVars { wakes := true; } else { reading := reading + 1; }
        pc' := CUnlockCell;
      case CUnlockCell =>
        FreeCell(reading_pos);
        pc' := CInc;
      case CExitUnlockCell =>
        FreeCell(reading_pos);
        pc' := CExitUnlockR;
      case CUnlockR =>
        read_lock := None;
        pc' := CLockR;
      case CExitUnlockR =>
        read_lock := None;
        pc' := CDone;
    }

    method ConsumerWorks(c: Config, i: nat, pc: CPc) returns (ok: bool, pc': CPc, wakes: bool)
      requires pc.CTest? || pc.CTestEnd? || pc.CCount? || pc.CClear? || pc.CInc? || pc.CMod? || pc.CDone?
      modifies this, global_buffer
      ensures !ok ==> ActC(c, old(View()), i, pc) == BlockedC && View() == old(View())
      ensures ok ==> ActC(c, old(View()), i, pc) == DoneC(View(), pc', wakes)
    {
      ok, pc', wakes := true, pc, false;
      match pc
      case CTest =>
        if reading_pos < global_buffer.Length {
          pc' := if global_buffer[reading_pos] == None then CTestEnd else CCount;
        } else { ok := false; }
      case CTestEnd =>
        pc' := if end_time then CExitUnlockCell else CWait;
      case CCount =>
        if reading_pos < global_buffer.Length && global_buffer[reading_pos].Some? {
          var line := global_buffer[reading_pos].value;
          if |line| < c.limit && c.mode == 0 { line_counter := line_counter + 1; }
          if |line| == c.limit && c.mode == 1 { line_counter := line_counter + 1; }
          if |line| > c.limit && c.mode == 2 { line_counter := line_counter + 1; }
          pc' := CClear;
        } else { ok := false; }
      case CClear =>
        if reading_pos < global_buffer.Length && global_buffer[reading_pos].Some? {
          taken := taken + [global_buffer[reading_pos].value];
          global_buffer[reading_pos] := None;
          pc' := CNotify;
        } else { ok := false; }
      case CInc =>
        reading_pos := reading_pos + 1;
        pc' := CMod;
      case CMod =>
        if global_buffer.Length > 0 {
          RemainderIsMod(reading_pos, global_buffer.Length);
          reading_pos := reading_pos % global_buffer.Length;
          pc' := CUnlockR;
        } else { ok := false; }
      case CDone => ok := false;
    }
  }

  /** The program: its shared memory and where each of its threads is. */
  class Program {
    const c: Config
    const shared: Shared
    const prod: array<PPc>
    const cons: array<CPc>

    constructor (c: Config, P: nat, K: nat, N: nat)
      ensures fresh(shared) && fresh(shared.global_buffer) && fresh(shared.buffer_lock) && fresh(prod) && fresh(cons)
      ensures this.c == c && View() == Init(P, K, N)
    {
      this.c := c;
      shared := new Shared(N);
      prod := new PPc[P](_ => PLockW);
      cons := new CPc[K](_ => CLockR);
      new;
      assert prod[..] == seq(P, _ => PLockW) && cons[..] == seq(K, _ => CLockR);
    }

    ghost function View(): State
      reads this, shared, shared.global_buffer, shared.buffer_lock, prod, cons
    {
      State(shared.View(), prod[..], cons[..])
    }

    /** A broadcast moves every sleeper on. */
    method WakeConsumers()
      modifies cons
      ensures cons[..] == seq(cons.Length, j requires 0 <= j < cons.Length => WokenC(old(cons[..])[j]))
    {
      for j := 0 to cons.Length
        invariant forall k :: 0 <= k < cons.Length ==> cons[k] == if k < j then WokenC(old(cons[k])) else old(cons[k])
      {
        cons[j] := WokenC(cons[j]);
      }
    }

    method WakeProducers()
      modifies prod
      ensures prod[..] == seq(prod.Length, j requires 0 <= j < prod.Length => WokenP(old(prod[..])[j]))
    {
      for j := 0 to prod.Length
        invariant forall k :: 0 <= k < prod.Length ==> prod[k] == if k < j then WokenP(old(prod[k])) else old(prod[k])
      {
        prod[j] := WokenP(prod[j]);
      }
    }

    method ProducerMoves(i: nat) returns (ok: bool)
      modifies shared, shared.global_buffer, shared.buffer_lock, prod, cons
      ensures Next(c, old(View()), Move(Producer(i))) == if ok then Some(View()) else None
      ensures !ok ==> View() == old(View())
    {
      if i >= prod.Length { return false; }
      var pc := prod[i];
      var pc', wakes;
      if pc.PTest? || pc.PRead? || pc.PStore? || pc.PCountLine? || pc.PInc? || pc.PMod? || pc.PSetEnd? || pc.PDone? {
        ok, pc', wakes := shared.ProducerWorks(c, i, pc);
      } else {
        ok, pc', wakes := shared.ProducerSyncs(c, i, pc);
      }
      if ok {
        prod[i] := pc';
        if wakes { WakeConsumers(); }
        assert Next(c, old(View()), Move(Producer(i))).value.cons == cons[..];
      }
    }

    method ConsumerMoves(i: nat) returns (ok: bool)
      modifies shared, shared.global_buffer, shared.buffer_lock, prod, cons
      ensures Next(c, old(View()), Move(Consumer(i))) == if ok then Some(View()) else None
      ensures !ok ==> View() == old(View())
    {
      if i >= cons.Length { return false; }
      var pc := cons[i];
      var pc', wakes;
      if pc.CTest? || pc.CTestEnd? || pc.CCount? || pc.CClear? || pc.CInc? || pc.CMod? || pc.CDone? {
        ok, pc', wakes := shared.ConsumerWorks(c, i, pc);
      } else {
        ok, pc', wakes := shared.ConsumerSyncs(c, i, pc);
      }
      if ok {
        cons[i] := pc';
        if wakes { WakeProducers(); }
        assert Next(c, old(View()), Move(Consumer(i))).value.prod == prod[..];
      }
    }

    method WakesSpuriously(t: Thread) returns (ok: bool)
      modifies prod, cons
      ensures Next(c, old(View()), Spurious(t)) == if ok then Some(View()) else None
      ensures !ok ==> View() == old(View())
    {
      match t
      case Producer(i) =>
        ok := c.sync == CondVars && i < prod.Length && prod[i] == PAsleep;
        if ok { prod[i] := PRelock; }
      case Consumer(i) =>
        ok := c.sync == CondVars && i < cons.Length && cons[i] == CAsleep;
        if ok { cons[i] := CRelock; }
    }

    method Step(a: Action) returns (ok: bool)
      modifies shared, shared.global_buffer, shared.buffer_lock, prod, cons
      ensures Next(c, old(View()), a) == if ok then Some(View()) else None
      ensures !ok ==> View() == old(View())
    {
      match a
      case Move(Producer(i)) => ok := ProducerMoves(i);
      case Move(Consumer(i)) => ok := ConsumerMoves(i);
      case Spurious(t) => ok := WakesSpuriously(t);
    }

    /** A whole run in place, until the schedule is done or names a thread that is blocked.  It
        goes through the states the step function goes through, and keeps the ring invariant. */
    method Run(schedule: seq<Action>) returns (done: nat)
      requires RingSystem.Inv(c, View())
      modifies shared, shared.global_buffer, shared.buffer_lock, prod, cons
      ensures done <= |schedule|
      ensures Exec(RingSystem.System(c), old(View()), schedule[..done]) == Some(View())
      ensures done < |schedule| ==> Next(c, View(), schedule[done]) == None
      ensures RingSystem.Inv(c, View())
    {
      done := 0;
      var ok := true;
      while done < |schedule|
        invariant done <= |schedule|
        invariant Exec(RingSystem.System(c), old(View()), schedule[..done]) == Some(View())
        invariant RingSystem.Inv(c, View())
      {
        ghost var before := View();
        ok := Step(schedule[done]);
        if !ok { break; }
        RingSystem.StepKeepsInv(c, before, schedule[done], View());
        assert schedule[..done + 1][..done] == schedule[..done];
        done := done + 1;
      }
    }
  }

  /** The whole program on a file, for as long as the schedule goes or can go.  Once a consumer
      has returned, and also when nobody can move any more, line_counter is the number of lines
      that satisfy the search, every cell is NULL, and nothing of the file is unread. */
  method Search(c: Config, P: nat, K: nat, N: nat, schedule: seq<Action>) returns (p: Program, done: nat)
    requires P >= 1 && K >= 1 && N >= 1
    ensures fresh(p) && done <= |schedule| && (done < |schedule| ==> Next(c, p.View(), schedule[done]) == None)
    ensures RingSystem.Reaches(c, P, K, N, schedule[..done], p.View())
    ensures (exists i :: 0 <= i < p.cons.Length && p.cons[i].CDone?) || RingTheorems.Stuck(c, p.View()) ==>
              && p.shared.line_counter == RingInvariant.Matching(c, c.file)
              && p.shared.lines_read == |c.file|
              && forall k :: 0 <= k < p.shared.global_buffer.Length ==> p.shared.global_buffer[k] == None
    ensures p.shared.line_nr <= p.shared.lines_read <= |c.file|
  {
    p := new Program(c, P, K, N);
    RingSystem.InitInv(c, P, K, N);
    done := p.Run(schedule);
    ghost var s := p.View();
    AtTheEnd(c, P, K, N, schedule[..done], s);
    assert forall k :: 0 <= k < p.shared.global_buffer.Length ==> p.shared.global_buffer[k] == s.mem.buf.cells[k];
    assert forall i :: 0 <= i < p.cons.Length ==> p.cons[i] == s.cons[i];
  }

  lemma AtTheEnd(c: Config, P: nat, K: nat, N: nat, schedule: seq<Action>, s: State)
    requires P >= 1 && K >= 1 && N >= 1 && RingSystem.Reaches(c, P, K, N, schedule, s)
    ensures s.mem.count.lineNr <= s.mem.count.read <= |c.file|
    ensures (exists i :: 0 <= i < |s.cons| && s.cons[i].CDone?) || RingTheorems.Stuck(c, s) ==>
              && s.mem.count.found == RingInvariant.Matching(c, c.file) && s.mem.count.read == |c.file|
              && forall k :: 0 <= k < |s.mem.buf.cells| ==> s.mem.buf.cells[k] == None
  {
    hide RingTheorems.Stuck;
    RingSystem.EveryRunKeepsInv(c, P, K, N, schedule, s);
    if i: nat :| i < |s.cons| && s.cons[i].CDone? {
      RingTheorems.ReturnMeansSearched(c, P, K, N, schedule, s, i);
    } else if RingTheorems.Stuck(c, s) {
      RingTheorems.StuckMeansSearched(c, P, K, N, schedule, s);
    }
    CountsAre(c, s);
  }

  lemma CountsAre(c: Config, s: State)
    requires RingSystem.Inv(c, s)
    ensures s.mem.count.lineNr <= s.mem.count.read <= |c.file|
    ensures s.mem.buf.taken == c.file ==> s.mem.count.read == |c.file|
    ensures s.mem.buf.taken == c.file ==> forall k :: 0 <= k < |s.mem.buf.cells| ==> s.mem.buf.cells[k] == None
  {
    if s.mem.buf.taken == c.file { RingTheorems.EmptyRing(c, s.mem.buf); }
  }
}
