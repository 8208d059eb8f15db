/** The sleeping barber: one barber process and any number of client processes, one mutex,
    two handshake semaphores that carry no identity, an awake flag, a seat counter, a queue,
    and two signals whose handlers take part in the handshake.

    Every action is one access to shared memory, one library call or one signal delivery of
    one process.  Standard signals do not queue (section 2.4.1 of XSH, IEEE Std 1003.1-2017):
    a signal is a pending bit.  A handler runs on top of the main code, which waits for it.
    A process that spins on a flag is blocked while the flag does not let it through. */
module Barber {
  import opened Runs

  /** The barber's main loop: the call or access it makes next. */
  datatype BPc =
    | BLock          // sem_wait(semID)
    | BReceive       // mq_receive
    | BLeaveSeat     // shmAddr[2]--
    | BInvite        // kill(recMsg.pid, SIGUSR1)
    | BAwaitSit      // sem_wait(recMsgSem)
    | BUnlock        // sem_post(semID)
    | BFinish        // sem_post(sendMsgSem)
    | BAwaitLeave    // sem_wait(recMsgSem)
    | BSleep         // shmAddr[0] = 0
    | BUnlockAsleep  // sem_post(semID)
    | BSpin          // while (!shmAddr[0])

  /** The barber's SIGUSR2 handler. */
  datatype HPc =
    | HNone
    | HWake          // shmAddr[0] = 1
    | HConfirm       // sem_post(sendMsgSem)
    | HAwaitSit      // sem_wait(recMsgSem)
    | HFinish        // sem_post(sendMsgSem)
    | HAwaitLeave    // sem_wait(recMsgSem)

  /** guest is recMsg.pid, waker is info->si_pid, pending a SIGUSR2 not yet delivered. */
  datatype Barber = Barber(main: BPc, handler: HPc, guest: nat, waker: nat, pending: Option<nat>)

  /** A client's main loop. */
  datatype CPc =
    | CTop           // while (noOfShaves > 0)
    | CLock          // sem_wait(semID)
    | CTestAwake     // shmAddr[0]
    | CTestSeats     // shmAddr[2] < shmAddr[1]
    | CTakeSeat      // shmAddr[2]++
    | CSend          // mq_send
    | CUnlockQueued  // sem_post(semID)
    | CSpin          // while (!shaved)
    | CCountQueued   // noOfShaves--
    | CClear         // shaved = 0
    | CUnlockFull    // sem_post(semID), no free seat
    | CKill          // kill(shmAddr[3], SIGUSR2)
    | CAwaitWoken    // sem_wait, barber confirms it is awake
    | CUnlockWoken   // sem_post(semID)
    | CSit           // sem_post, sitting in the chair
    | CAwaitShave    // sem_wait, shave done
    | CLeave         // sem_post, leaving
    | CCountWoken    // noOfShaves--
    | CFinished

  /** A client's SIGUSR1 handler. */
  datatype GPc =
    | GNone
    | GSit           // sem_post, sitting in the chair
    | GAwaitShave    // sem_wait, shave done
    | GLeave         // sem_post, leaving
    | GSetShaved     // shaved = 1

  datatype Client = Client(pc: CPc, handler: GPc, pending: bool, shaved: bool, remaining: int)

  /** The number of seats, the capacity of the message queue and how often each client comes. */
  datatype Config = Config(seats: nat, capacity: nat, visits: nat)

  /** semID, recMsgSem and sendMsgSem (as the barber names them). */
  datatype Sems = Sems(mutex: nat, rec: nat, send: nat)

  /** awake is shmAddr[0], seated is shmAddr[2], queue the message queue. */
  datatype Shop = Shop(awake: bool, seated: int, queue: seq<nat>)

  datatype Party = TheBarber | AClient(id: nat)

  /** What has happened; no process reads it. */
  datatype History = History(holder: Option<Party>, shaves: seq<nat>, joined: seq<nat>, called: seq<nat>)

  datatype State = State(b: Barber, clients: seq<Client>, sems: Sems, shop: Shop, hist: History)

  datatype Action =
    | BarberMoves                   // main loop
    | BarberHandles                 // one action of its handler
    | BarberInterrupted             // SIGUSR2 is delivered
    | ClientMoves(id: nat)
    | ClientHandles(id: nat)
    | ClientInterrupted(id: nat)

  // ---------- the barber ----------

  function Acquire(s: State, who: Party): State
    requires s.sems.mutex > 0
  {
    s.(sems := s.sems.(mutex := s.sems.mutex - 1), hist := s.hist.(holder := Some(who)))
  }

  function Release(s: State): State {
    s.(sems := s.sems.(mutex := s.sems.mutex + 1), hist := s.hist.(holder := None))
  }

  function Main(s: State, pc: BPc): State { s.(b := s.b.(main := pc)) }

  function Handler(s: State, pc: HPc): State { s.(b := s.b.(handler := pc)) }

  function Shaved(s: State, i: nat): State {
    if i < |s.hist.shaves| then s.(hist := s.hist.(shaves := s.hist.shaves[i := s.hist.shaves[i] + 1])) else s
  }

  function BarberMain(s: State): Option<State> {
    if s.b.handler != HNone then None
    else
      match s.b.main
      case BLock => if s.sems.mutex > 0 then Some(Main(Acquire(s, TheBarber), BReceive)) else None
      case BReceive =>
        if s.shop.queue == [] then Some(Main(s, BSleep))
        else
          var first := s.shop.queue[0];
          Some(s.(b := s.b.(main := BLeaveSeat, guest := first),
                  shop := s.shop.(queue := s.shop.queue[1..]),
                  hist := s.hist.(called := s.hist.called + [first])))
      case BLeaveSeat => Some(Main(s.(shop := s.shop.(seated := s.shop.seated - 1)), BInvite))
      case BInvite =>
        if s.b.guest < |s.clients|
        then Some(Main(s.(clients := s.clients[s.b.guest := s.clients[s.b.guest].(pending := true)]), BAwaitSit))
        else None
      case BAwaitSit => if s.sems.rec > 0 then Some(Main(s.(sems := s.sems.(rec := s.sems.rec - 1)), BUnlock)) else None
      case BUnlock => Some(Main(Release(s), BFinish))
      case BFinish => Some(Main(Shaved(s.(sems := s.sems.(send := s.sems.send + 1)), s.b.guest), BAwaitLeave))
      case BAwaitLeave => if s.sems.rec > 0 then Some(Main(s.(sems := s.sems.(rec := s.sems.rec - 1)), BLock)) else None
      case BSleep => Some(Main(s.(shop := s.shop.(awake := false)), BUnlockAsleep))
      case BUnlockAsleep => Some(Main(Release(s), BSpin))
      case BSpin => if s.shop.awake then Some(Main(s, BLock)) else None
  }

  function BarberHandler(s: State): Option<State> {
    match s.b.handler
    case HNone => None
    case HWake => Some(Handler(s.(shop := s.shop.(awake := true)), HConfirm))
    case HConfirm => Some(Handler(s.(sems := s.sems.(send := s.sems.send + 1)), HAwaitSit))
    case HAwaitSit => if s.sems.rec > 0 then Some(Handler(s.(sems := s.sems.(rec := s.sems.rec - 1)), HFinish)) else None
    case HFinish => Some(Handler(Shaved(s.(sems := s.sems.(send := s.sems.send + 1)), s.b.waker), HAwaitLeave))
    case HAwaitLeave => if s.sems.rec > 0 then Some(Handler(s.(sems := s.sems.(rec := s.sems.rec - 1)), HNone)) else None
  }

  function BarberInterrupt(s: State): Option<State> {
    if s.b.handler == HNone && s.b.pending.Some?
    then Some(s.(b := s.b.(handler := HWake, waker := s.b.pending.value, pending := None)))
    else None
  }

  // ---------- client i ----------

  function Put(s: State, i: nat, c: Client): State
    requires i < |s.clients|
  {
    s.(clients := s.clients[i := c])
  }

  function ClientMain(c: Config, s: State, i: nat): Option<State>
    requires i < |s.clients|
  {
    var me := s.clients[i];
    if me.handler != GNone then None
    else
      match me.pc
      case CTop => Some(Put(s, i, me.(pc := if me.remaining > 0 then CLock else CFinished)))
      case CLock => if s.sems.mutex > 0 then Some(Put(Acquire(s, AClient(i)), i, me.(pc := CTestAwake))) else None
      case CTestAwake => Some(Put(s, i, me.(pc := if s.shop.awake then CTestSeats else CKill)))
      case CTestSeats => Some(Put(s, i, me.(pc := if s.shop.seated < c.seats then CTakeSeat else CUnlockFull)))
      case CTakeSeat => Some(Put(s.(shop := s.shop.(seated := s.shop.seated + 1)), i, me.(pc := CSend)))
      case CSend =>
        if |s.shop.queue| < c.capacity
        then Some(Put(s.(shop := s.shop.(queue := s.shop.queue + [i]), hist := s.hist.(joined := s.hist.joined + [i])),
                      i, me.(pc := CUnlockQueued)))
        else None
      case CUnlockQueued => Some(Put(Release(s), i, me.(pc := CSpin)))
      case CSpin => if me.shaved then Some(Put(s, i, me.(pc := CCountQueued))) else None
      case CCountQueued => Some(Put(s, i, me.(pc := CClear, remaining := me.remaining - 1)))
      case CClear => Some(Put(s, i, me.(pc := CTop, shaved := false)))
      case CUnlockFull => Some(Put(Release(s), i, me.(pc := CTop)))
      case CKill =>
        Some(Put(s.(b := if s.b.pending.None? then s.b.(pending := Some(i)) else s.b), i, me.(pc := CAwaitWoken)))
      case CAwaitWoken =>
        if s.sems.send > 0 then Some(Put(s.(sems := s.sems.(send := s.sems.send - 1)), i, me.(pc := CUnlockWoken))) else None
      case CUnlockWoken => Some(Put(Release(s), i, me.(pc := CSit)))
      case CSit => Some(Put(s.(sems := s.sems.(rec := s.sems.rec + 1)), i, me.(pc := CAwaitShave)))
      case CAwaitShave =>
        if s.sems.send > 0 then Some(Put(s.(sems := s.sems.(send := s.sems.send - 1)), i, me.(pc := CLeave))) else None
      case CLeave => Some(Put(s.(sems := s.sems.(rec := s.sems.rec + 1)), i, me.(pc := CCountWoken)))
      case CCountWoken => Some(Put(s, i, me.(pc := CTop, remaining := me.remaining - 1)))
      case CFinished => None
  }

  function ClientHandler(s: State, i: nat): Option<State>
    requires i < |s.clients|
  {
    var me := s.clients[i];
    match me.handler
    case GNone => None
    case GSit => Some(Put(s.(sems := s.sems.(rec := s.sems.rec + 1)), i, me.(handler := GAwaitShave)))
    case GAwaitShave =>
      if s.sems.send > 0 then Some(Put(s.(sems := s.sems.(send := s.sems.send - 1)), i, me.(handler := GLeave))) else None
    case GLeave => Some(Put(s.(sems := s.sems.(rec := s.sems.rec + 1)), i, me.(handler := GSetShaved)))
    case GSetShaved => Some(Put(s, i, me.(handler := GNone, shaved := true)))
  }

  function ClientInterrupt(s: State, i: nat): Option<State>
    requires i < |s.clients|
  {
    var me := s.clients[i];
    if me.handler == GNone && me.pending then Some(Put(s, i, me.(handler := GSit, pending := false))) else None
  }

  // ---------- the whole shop ----------

  function Next(c: Config, s: State, a: Action): Option<State> {
    match a
    case BarberMoves => BarberMain(s)
    case BarberHandles => BarberHandler(s)
    case BarberInterrupted => BarberInterrupt(s)
    case ClientMoves(i) => if i < |s.clients| then ClientMain(c, s, i) else None
    case ClientHandles(i) => if i < |s.clients| then ClientHandler(s, i) else None
    case ClientInterrupted(i) => if i < |s.clients| then ClientInterrupt(s, i) else None
  }

  /** What main sets up: the barber awake, n clients about to enter, every handshake token 0. */
  function Init(c: Config, n: nat): State {
    State(Barber(BLock, HNone, 0, 0, None),
          seq(n, _ => Client(CTop, GNone, false, false, c.visits)),
          Sems(1, 0, 0), Shop(true, 0, []), History(None, seq(n, _ => 0), [], []))
  }
}
