/** The barber shop as it lies in memory: semaphores, shared fields, queue and the processes'
    own variables, changed in place.  Each method performs one action of one process, and its
    result is the one the step function gives. */
module BarberMemory {
  import opened Runs
  import opened Barber
  import BarberInvariant
  import BarberTheorems

  predicate OnWakePath(pc: CPc) {
    pc.CKill? || pc.CAwaitWoken? || pc.CUnlockWoken? || pc.CSit? || pc.CAwaitShave? || pc.CLeave? || pc.CCountWoken? || pc.CFinished?
  }

  class Memory {
    const c: Config
    const clients: array<Client>
    var barber: Barber
    var semID: nat              // the mutex
    var recMsgSem: nat
    var sendMsgSem: nat
    var awake: bool             // shmAddr[0]
    var seated: int             // shmAddr[2]
    var queue: seq<nat>
    ghost var hist: History

    constructor (c: Config, n: nat)
      ensures fresh(clients) && this.c == c && View() == Init(c, n)
    {
      this.c := c;
      clients := new Client[n](_ => Client(CTop, GNone, false, false, c.visits));
      barber := Barber(BLock, HNone, 0, 0, None);
      semID, recMsgSem, sendMsgSem := 1, 0, 0;
      awake, seated, queue := true, 0, [];
      hist := History(None, seq(n, _ => 0), [], []);
      new;
      assert clients[..] == seq(n, _ => Client(CTop, GNone, false, false, c.visits));
    }

    ghost function View(): State
      reads this, clients
    {
      State(barber, clients[..], Sems(semID, recMsgSem, sendMsgSem), Shop(awake, seated, queue), hist)
    }

    /** sem_wait on the mutex. */
    method TryAcquire(who: Party) returns (ok: bool)
      modifies this`semID, this`hist
      ensures ok == (old(semID) > 0)
      ensures View() == if ok then Acquire(old(View()), who) else old(View())
    {
      ok := semID > 0;
      if ok {
        semID := semID - 1;
        hist := hist.(holder := Some(who));
      }
    }

    method PostMutex()
      modifies this`semID, this`hist
      ensures View() == Release(old(View()))
    {
      semID := semID + 1;
      hist := hist.(holder := None);
    }

    /** sem_wait on the semaphore the barber receives from. */
    method TryReceive() returns (ok: bool)
      modifies this`recMsgSem
      ensures ok == (old(recMsgSem) > 0)
      ensures View() == if ok then old(View()).(sems := old(View()).sems.(rec := old(recMsgSem) - 1)) else old(View())
    {
      ok := recMsgSem > 0;
      if ok { recMsgSem := recMsgSem - 1; }
    }

    /** sem_wait on the semaphore the barber sends on. */
    method TryTakeSent() returns (ok: bool)
      modifies this`sendMsgSem
      ensures ok == (old(sendMsgSem) > 0)
      ensures View() == if ok then old(View()).(sems := old(View()).sems.(send := old(sendMsgSem) - 1)) else old(View())
    {
      ok := sendMsgSem > 0;
      if ok { sendMsgSem := sendMsgSem - 1; }
    }

    /** sem_post of the barber when a shave is done; the history counts the shave. */
    method FinishShave(i: nat)
      modifies this`sendMsgSem, this`hist
      ensures View() == Shaved(old(View()).(sems := old(View()).sems.(send := old(sendMsgSem) + 1)), i)
    {
      sendMsgSem := sendMsgSem + 1;
      if i < |hist.shaves| { hist := hist.(shaves := hist.shaves[i := hist.shaves[i] + 1]); }
    }

    method BarberStep() returns (ok: bool)
      modifies this, clients
      ensures BarberMain(old(View())) == if ok then Some(View()) else None
      ensures !ok ==> View() == old(View())
    {
      if barber.handler != HNone { return false; }
      ok := true;
      match barber.main
      case BLock =>
        ok := TryAcquire(TheBarber);
        if ok { barber := barber.(main := BReceive); }
      case BReceive =>
        if queue == [] {
          barber := barber.(main := BSleep);
        } else {
          barber := barber.(main := BLeaveSeat, guest := queue[0]);
          hist := hist.(called := hist.called + [queue[0]]);
          queue := queue[1..];
        }
      case BLeaveSeat =>
        seated := seated - 1;
        barber := barber.(main := BInvite);
      case BInvite =>
        ok := barber.guest < clients.Length;
        if ok {
          clients[barber.guest] := clients[barber.guest].(pending := true);
          barber := barber.(main := BAwaitSit);
        }
      case BAwaitSit =>
        ok := TryReceive();
        if ok { barber := barber.(main := BUnlock); }
      case BUnlock =>
        PostMutex();
        barber := barber.(main := BFinish);
      case BFinish =>
        FinishShave(barber.guest);
        barber := barber.(main := BAwaitLeave);
      case BAwaitLeave =>
        ok := TryReceive();
        if ok { barber := barber.(main := BLock); }
      case BSleep =>
        awake := false;
        barber := barber.(main := BUnlockAsleep);
      case BUnlockAsleep =>
        PostMutex();
        barber := barber.(main := BSpin);
      case BSpin =>
        ok := awake;
        if ok { barber := barber.(main := BLock); }
    }

    /** catchSIGUSR2 */
    method BarberHandlerStep() returns (ok: bool)
      modifies this
      ensures BarberHandler(old(View())) == if ok then Some(View()) else None
      ensures !ok ==> View() == old(View())
    {
      ok := true;
      match barber.handler
      case HNone => ok := false;
      case HWake =>
        awake := true;
        barber := barber.(handler := HConfirm);
      case HConfirm =>
        sendMsgSem := sendMsgSem + 1;
        barber := barber.(handler := HAwaitSit);
      case HAwaitSit =>
        ok := TryReceive();
        if ok { barber := barber.(handler := HFinish); }
      case HFinish =>
        FinishShave(barber.waker);
        barber := barber.(handler := HAwaitLeave);
      case HAwaitLeave =>
        ok := TryReceive();
        if ok { barber := barber.(handler := HNone); }
    }

    method InterruptBarber() returns (ok: bool)
      modifies this`barber
      ensures BarberInterrupt(old(View())) == if ok then Some(View()) else None
      ensures !ok ==> View() == old(View())
    {
      ok := barber.handler == HNone && barber.pending.Some?;
      if ok { barber := barber.(handler := HWake, waker := barber.pending.value, pending := None); }
    }

    /** The client's way through the mutex and into the queue. */
    method ClientQueues(i: nat) returns (ok: bool)
      requires i < clients.Length && clients[i].handler == GNone
      requires !OnWakePath(clients[i].pc)
      modifies this, clients
      ensures ClientMain(c, old(View()), i) == if ok then Some(View()) else None
      ensures !ok ==> View() == old(View())
    {
      var me := clients[i];
      ok := true;
      match me.pc
      case CTop => clients[i] := me.(pc := if me.remaining > 0 then CLock else CFinished);
      case CLock =>
        ok := TryAcquire(AClient(i));
        if ok { clients[i] := me.(pc := CTestAwake); }
      case CTestAwake => clients[i] := me.(pc := if awake then CTestSeats else CKill);
      case CTestSeats => clients[i] := me.(pc := if seated < c.seats then CTakeSeat else CUnlockFull);
      case CTakeSeat =>
        seated := seated + 1;
        clients[i] := me.(pc := CSend);
      case CSend =>
        ok := |queue| < c.capacity;
        if ok {
          queue := queue + [i];
          hist := hist.(joined := hist.joined + [i]);
          clients[i] := me.(pc := CUnlockQueued);
        }
      case CUnlockQueued =>
        PostMutex();
        clients[i] := me.(pc := CSpin);
      case CSpin =>
        ok := me.shaved;
        if ok { clients[i] := me.(pc := CCountQueued); }
      case CCountQueued => clients[i] := me.(pc := CClear, remaining := me.remaining - 1);
      case CClear => clients[i] := me.(pc := CTop, shaved := false);
      case CUnlockFull =>
        PostMutex();
        clients[i] := me.(pc := CTop);
    }

    /** The client that wakes the barber, from its signal to the end of its shave. */
    method ClientWakes(i: nat) returns (ok: bool)
      requires i < clients.Length && clients[i].handler == GNone
      requires OnWakePath(clients[i].pc)
      modifies this, clients
      ensures ClientMain(c, old(View()), i) == if ok then Some(View()) else None
      ensures !ok ==> View() == old(View())
    {
      var me := clients[i];
      ok := true;
      match me.pc
      case CKill =>
        if barber.pending.None? { barber := barber.(pending := Some(i)); }
        clients[i] := me.(pc := CAwaitWoken);
      case CAwaitWoken =>
        ok := TryTakeSent();
        if ok { clients[i] := me.(pc := CUnlockWoken); }
      case CUnlockWoken =>
        PostMutex();
        clients[i] := me.(pc := CSit);
      case CSit =>
        recMsgSem := recMsgSem + 1;
        clients[i] := me.(pc := CAwaitShave);
      case CAwaitShave =>
        ok := TryTakeSent();
        if ok { clients[i] := me.(pc := CLeave); }
      case CLeave =>
        recMsgSem := recMsgSem + 1;
        clients[i] := me.(pc := CCountWoken);
      case CCountWoken => clients[i] := me.(pc := CTop, remaining := me.remaining - 1);
      case CFinished => ok := false;
    }

    method ClientStep(i: nat) returns (ok: bool)
      requires i < clients.Length
      modifies this, clients
      ensures ClientMain(c, old(View()), i) == if ok then Some(View()) else None
      ensures !ok ==> View() == old(View())
    {
      if clients[i].handler != GNone { return false; }
      if OnWakePath(clients[i].pc) {
        ok := ClientWakes(i);
      } else {
        ok := ClientQueues(i);
      }
    }

    /** catchSIGUSR1 */
    method ClientHandlerStep(i: nat) returns (ok: bool)
      requires i < clients.Length
      modifies this, clients
      ensures ClientHandler(old(View()), i) == if ok then Some(View()) else None
      ensures !ok ==> View() == old(View())
    {
      var me := clients[i];
      ok := true;
      match me.handler
      case GNone => ok := false;
      case GSit =>
        recMsgSem := recMsgSem + 1;
        clients[i] := me.(handler := GAwaitShave);
      case GAwaitShave =>
        ok := TryTakeSent();
        if ok { clients[i] := me.(handler := GLeave); }
      case GLeave =>
        recMsgSem := recMsgSem + 1;
        clients[i] := me.(handler := GSetShaved);
      case GSetShaved => clients[i] := me.(handler := GNone, shaved := true);
    }

    method InterruptClient(i: nat) returns (ok: bool)
      requires i < clients.Length
      modifies clients
      ensures ClientInterrupt(old(View()), i) == if ok then Some(View()) else None
      ensures !ok ==> View() == old(View())
    {
      ok := clients[i].handler == GNone && clients[i].pending;
      if ok { clients[i] := clients[i].(handler := GSit, pending := false); }
    }

    method Step(a: Action) returns (ok: bool)
      modifies this, clients
      ensures Next(c, old(View()), a) == if ok then Some(View()) else None
      ensures !ok ==> View() == old(View())
    {
      match a
      case BarberMoves => ok := BarberStep();
      case BarberHandles => ok := BarberHandlerStep();
      case BarberInterrupted => ok := InterruptBarber();
      case ClientMoves(i) => if i < clients.Length { ok := ClientStep(i); } else { ok := false; }
      case ClientHandles(i) => if i < clients.Length { ok := ClientHandlerStep(i); } else { ok := false; }
      case ClientInterrupted(i) => if i < clients.Length { ok := InterruptClient(i); } else { ok := false; }
    }

    /** A whole run in place, until the schedule is done or names a process that is blocked.  It
        goes through the states the step function goes through, and keeps the shop invariant. */
    method Run(schedule: seq<Action>) returns (done: nat)
      requires BarberInvariant.Inv(c, View())
      modifies this, clients
      ensures done <= |schedule|
      ensures Exec(BarberInvariant.System(c), old(View()), schedule[..done]) == Some(View())
      ensures done < |schedule| ==> Next(c, View(), schedule[done]) == None
      ensures BarberInvariant.Inv(c, View())
    {
      hide Next, BarberInvariant.Inv;
      done := 0;
      var ok := true;
      while done < |schedule|
        invariant done <= |schedule|
        invariant Exec(BarberInvariant.System(c), old(View()), schedule[..done]) == Some(View())
        invariant BarberInvariant.Inv(c, View())
      {
        ghost var before := View();
        ok := Step(schedule[done]);
        if !ok { break; }
        BarberInvariant.StepKeepsInv(c, before, schedule[done], View());
        assert schedule[..done + 1][..done] == schedule[..done];
        done := done + 1;
      }
    }
  }

  /** A whole day in the shop, for as long as the schedule goes or can go.  At any time the two
      handshake semaphores hold one token at most, and the seat counter is right whenever the
      mutex is free.  When nobody can move any more in a roomy shop, every client has gone home with all the
      shaves it came for, and the shop is as it was in the beginning but for the sleeping barber. */
  method Day(c: Config, n: nat, schedule: seq<Action>) returns (m: Memory, done: nat)
    ensures fresh(m) && done <= |schedule| && (done < |schedule| ==> Next(c, m.View(), schedule[done]) == None)
    ensures BarberInvariant.Reaches(c, n, schedule[..done], m.View())
    ensures m.recMsgSem + m.sendMsgSem <= 1
    ensures m.semID > 0 ==> m.seated == |m.queue| <= c.seats
    ensures BarberTheorems.Stuck(c, m.View()) && BarberTheorems.Roomy(c, n) ==>
              && m.hist.shaves == seq(n, _ => c.visits)
              && m.clients.Length == n && (forall i :: 0 <= i < n ==> m.clients[i].pc.CFinished? && m.clients[i].remaining == 0)
              && m.semID == 1 && m.recMsgSem == 0 && m.sendMsgSem == 0
              && m.seated == 0 && m.queue == [] && !m.awake
  {
    m := new Memory(c, n);
    BarberInvariant.InitInv(c, n);
    done := m.Run(schedule);
    ghost var s := m.View();
    assert forall i :: 0 <= i < m.clients.Length ==> m.clients[i] == s.clients[i];
    AtClosingTime(c, n, schedule[..done], s);
  }

  lemma AtClosingTime(c: Config, n: nat, schedule: seq<Action>, s: State)
    requires BarberInvariant.Reaches(c, n, schedule, s)
    ensures s.sems.rec + s.sems.send <= 1 && (s.sems.mutex > 0 ==> s.shop.seated == |s.shop.queue| <= c.seats)
    ensures BarberTheorems.Stuck(c, s) && BarberTheorems.Roomy(c, n) ==>
              && s.hist.shaves == seq(n, _ => c.visits)
              && |s.clients| == n && (forall i :: 0 <= i < n ==> s.clients[i].pc.CFinished? && s.clients[i].remaining == 0)
              && s.sems == Sems(1, 0, 0) && s.shop == Shop(false, 0, [])
  {
    hide BarberTheorems.Stuck;
    BarberTheorems.TokensNeverCross(c, n, schedule, s);
    BarberTheorems.SeatAccounting(c, n, schedule, s);
    if BarberTheorems.Stuck(c, s) && BarberTheorems.Roomy(c, n) {
      BarberTheorems.StuckIff(c, n, schedule, s);
      BarberTheorems.ClosedMeansShaved(c, n, schedule, s);
      BarberTheorems.ClientCount(c, n, schedule, s);
      BarberInvariant.EveryRunKeepsInv(c, n, schedule, s);
      ClosedShop(c, s);
    }
  }

  lemma ClosedShop(c: Config, s: State)
    requires BarberInvariant.Inv(c, s) && BarberTheorems.Closed(s)
    ensures s.sems == Sems(1, 0, 0) && s.shop == Shop(false, 0, [])
    ensures forall i :: 0 <= i < |s.clients| ==> s.clients[i].remaining == 0
  {
    assert BarberInvariant.StageOf(s.b).Idle?;
    var holder := s.hist.holder;
    assert holder != Some(TheBarber);
    forall i | 0 <= i < |s.clients| ensures holder != Some(AClient(i)) {
      assert s.clients[i].pc.CFinished?;
    }
    assert forall id: nat :: holder == Some(AClient(id)) ==> id < |s.clients|;
    assert holder.None?;
  }
}
