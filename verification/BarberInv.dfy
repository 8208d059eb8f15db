/** The invariant of the barber shop, one predicate a concern. */
module BarberInvariant {
  import opened Runs
  import opened Barber

  // ---------- who holds the mutex ----------

  predicate BarberHolds(pc: BPc) {
    pc.BReceive? || pc.BLeaveSeat? || pc.BInvite? || pc.BAwaitSit? || pc.BUnlock? || pc.BSleep? || pc.BUnlockAsleep?
  }

  predicate ClientHolds(pc: CPc) {
    pc.CTestAwake? || pc.CTestSeats? || pc.CTakeSeat? || pc.CSend? || pc.CUnlockQueued? || pc.CUnlockFull? ||
    pc.CKill? || pc.CAwaitWoken? || pc.CUnlockWoken?
  }

  ghost predicate MutexOk(mutex: nat, holder: Option<Party>, main: BPc, clients: seq<Client>) {
    && mutex == (if holder.None? then 1 else 0)
    && (holder == Some(TheBarber) <==> BarberHolds(main))
    && (forall i :: 0 <= i < |clients| ==> (holder == Some(AClient(i)) <==> ClientHolds(clients[i].pc)))
    && (holder.Some? && holder.value.AClient? ==> holder.value.id < |clients|)
  }

  // ---------- one client by itself ----------

  predicate WantsShave(pc: CPc) { !(pc.CTop? || pc.CClear? || pc.CFinished?) }

  /** A signal reaches a client only while it spins unshaved, and never twice. */
  predicate LocalOk(c: Client) {
    && (c.shaved ==> (c.pc.CSpin? || c.pc.CCountQueued? || c.pc.CClear?) && c.handler.GNone? && !c.pending)
    && (c.pending || !c.handler.GNone? ==> c.pc.CSpin? && !c.shaved)
    && !(c.pending && !c.handler.GNone?)
    && (c.pc.CCountQueued? || c.pc.CClear? ==> c.shaved)
    && c.remaining >= (if WantsShave(c.pc) then 1 else 0)
    && (c.pc.CFinished? ==> c.remaining == 0)
  }

  // ---------- the handshake ----------

  /** Where a client is in a service; Out when it is in none. */
  datatype Pos =
    | Out
    | Invited | SeatedQ | WaitingQ | LeavingQ   // called from the queue
    | Killed | Woken | SeatedW | WaitingW | LeavingW   // having woken the barber

  function PosOf(c: Client): Pos {
    match c.handler
    case GSit => SeatedQ
    case GAwaitShave => WaitingQ
    case GLeave => LeavingQ
    case GSetShaved => Out
    case GNone =>
      if c.pending then Invited
      else
        match c.pc
        case CAwaitWoken => Killed
        case CUnlockWoken => Woken
        case CSit => SeatedW
        case CAwaitShave => WaitingW
        case CLeave => LeavingW
        case _ => Out
  }

  /** Where the barber is in a service. */
  datatype Stage = Idle | Inviting | Shaving | Parting | WakingUp | Confirmed | ShavingW | PartingW

  function StageOf(b: Barber): Stage {
    match b.handler
    case HWake | HConfirm => WakingUp
    case HAwaitSit => Confirmed
    case HFinish => ShavingW
    case HAwaitLeave => PartingW
    case HNone =>
      if b.pending.Some? then WakingUp
      else
        match b.main
        case BAwaitSit => Inviting
        case BUnlock | BFinish => Shaving
        case BAwaitLeave => Parting
        case _ => Idle
  }

  /** The client the barber deals with. */
  function Customer(b: Barber): nat {
    if !b.handler.HNone? then b.waker else if b.pending.Some? then b.pending.value else b.guest
  }

  /** The tokens in the two handshake semaphores, against where barber and customer are. */
  predicate Handshake(stage: Stage, pos: Pos, rec: nat, send: nat) {
    match stage
    case Idle => rec == 0 && send == 0 && pos.Out?
    case Inviting => send == 0 && if rec == 0 then pos.Invited? || pos.SeatedQ? else rec == 1 && pos.WaitingQ?
    case Shaving => rec == 0 && send == 0 && pos.WaitingQ?
    case Parting =>
      || (rec == 0 && send == 1 && pos.WaitingQ?)
      || (rec == 0 && send == 0 && pos.LeavingQ?)
      || (rec == 1 && send == 0 && pos.Out?)
    case WakingUp => rec == 0 && send == 0 && pos.Killed?
    case Confirmed =>
      || (rec == 0 && send == 1 && pos.Killed?)
      || (rec == 0 && send == 0 && (pos.Woken? || pos.SeatedW?))
      || (rec == 1 && send == 0 && pos.WaitingW?)
    case ShavingW => rec == 0 && send == 0 && pos.WaitingW?
    case PartingW =>
      || (rec == 0 && send == 1 && pos.WaitingW?)
      || (rec == 0 && send == 0 && pos.LeavingW?)
      || (rec == 1 && send == 0 && pos.Out?)
  }

  /** Only the barber's customer is in service, and the tokens on their way are theirs. */
  ghost predicate TokensOk(stage: Stage, customer: nat, clients: seq<Client>, rec: nat, send: nat) {
    && (forall i :: 0 <= i < |clients| && i != customer ==> PosOf(clients[i]).Out?)
    && (stage.Idle? ==> rec == 0 && send == 0)
    && (customer < |clients| ==> Handshake(stage, PosOf(clients[customer]), rec, send))
    && (!stage.Idle? ==> customer < |clients|)
  }

  // ---------- awake, seats and queue ----------

  /** Asleep, the barber is in its sleep branch and nobody is queued; awake, no client is
      about to wake it. */
  ghost predicate AwakeOk(b: Barber, shop: Shop, clients: seq<Client>) {
    && (b.pending.Some? ==> b.main.BSpin? && b.handler.HNone? && !shop.awake)
    && (!b.handler.HNone? ==> b.main.BSpin?)
    && (!shop.awake ==> (b.main.BUnlockAsleep? || b.main.BSpin?) && (b.handler.HNone? || b.handler.HWake?) && shop.queue == [])
    && (b.handler.HWake? || b.main.BUnlockAsleep? ==> !shop.awake)
    && (b.main.BSleep? ==> shop.queue == [])
    && (forall i :: 0 <= i < |clients| ==>
          && (clients[i].pc.CTestSeats? || clients[i].pc.CTakeSeat? || clients[i].pc.CSend? ==> shop.awake)
          && (clients[i].pc.CKill? ==> !shop.awake && b.handler.HNone? && b.pending.None?))
  }

  function Sending(holder: Option<Party>, clients: seq<Client>): nat {
    if holder.Some? && holder.value.AClient? && holder.value.id < |clients| && clients[holder.value.id].pc.CSend? then 1 else 0
  }

  /** shmAddr[2] counts the queue, and whoever is between the counter and the queue. */
  ghost predicate SeatsOk(c: Config, main: BPc, shop: Shop, sending: nat, clients: seq<Client>) {
    && shop.seated == |shop.queue| + sending + (if main.BLeaveSeat? then 1 else 0)
    && shop.seated <= c.seats
    && (forall i :: 0 <= i < |clients| && clients[i].pc.CTakeSeat? ==> shop.seated < c.seats)
    && (forall i :: 0 <= i < |clients| && clients[i].pc.CUnlockFull? ==> shop.seated == c.seats)
  }

  /** In the queue, or just taken from it: waiting for SIGUSR1. */
  predicate Waits(c: Client) {
    (c.pc.CUnlockQueued? || c.pc.CSpin?) && !c.shaved && c.handler.GNone? && !c.pending
  }

  predicate JustCalled(main: BPc) { main.BLeaveSeat? || main.BInvite? }

  /** The queue holds each waiting client once, except the one just called. */
  ghost predicate QueueOk(main: BPc, guest: nat, queue: seq<nat>, clients: seq<Client>) {
    && (forall k :: 0 <= k < |queue| ==> queue[k] < |clients| && Waits(clients[queue[k]]))
    && (forall j, k :: 0 <= j < k < |queue| ==> queue[j] != queue[k])
    && (JustCalled(main) ==> guest < |clients| && guest !in queue && Waits(clients[guest]) && clients[guest].pc.CSpin?)
    && (forall i :: 0 <= i < |clients| && Waits(clients[i]) ==> i in queue || (JustCalled(main) && guest == i))
  }

  // ---------- the account of shaves ----------

  /** Shaved, but not yet counted off by the client itself. */
  function Owed(c: Client, stage: Stage, customer: bool): int {
    if c.pc.CCountQueued? || (c.pc.CSpin? && c.shaved) || c.pc.CLeave? || c.pc.CCountWoken?
       || c.handler.GLeave? || c.handler.GSetShaved? then 1
    else if customer && ((c.handler.GAwaitShave? && stage.Parting?) || (c.pc.CAwaitShave? && stage.PartingW?)) then 1
    else 0
  }

  ghost predicate AccountsOk(c: Config, stage: Stage, customer: nat, clients: seq<Client>, shaves: seq<nat>) {
    && |shaves| == |clients|
    && forall i :: 0 <= i < |clients| ==>
         shaves[i] + clients[i].remaining == c.visits + Owed(clients[i], stage, i == customer)
  }

  ghost predicate Inv(c: Config, s: State) {
    && MutexOk(s.sems.mutex, s.hist.holder, s.b.main, s.clients)
    && (forall i :: 0 <= i < |s.clients| ==> LocalOk(s.clients[i]))
    && TokensOk(StageOf(s.b), Customer(s.b), s.clients, s.sems.rec, s.sems.send)
    && AwakeOk(s.b, s.shop, s.clients)
    && SeatsOk(c, s.b.main, s.shop, Sending(s.hist.holder, s.clients), s.clients)
    && QueueOk(s.b.main, s.b.guest, s.shop.queue, s.clients)
    && AccountsOk(c, StageOf(s.b), Customer(s.b), s.clients, s.hist.shaves)
    && s.hist.joined == s.hist.called + s.shop.queue
  }

  // ---------- moves, as the invariant sees them ----------

  /** What client i's action may do to the mutex. */
  ghost predicate MutexMove(s: State, i: nat, s': State) {
    && i < |s.clients| && i < |s'.clients| && s'.clients == s.clients[i := s'.clients[i]]
    && s'.b.main == s.b.main
    && var before, after := ClientHolds(s.clients[i].pc), ClientHolds(s'.clients[i].pc);
       || (s'.sems.mutex == s.sems.mutex && s'.hist.holder == s.hist.holder && before == after)
       || (s.sems.mutex > 0 && s'.sems.mutex == s.sems.mutex - 1 && s'.hist.holder == Some(AClient(i)) && !before && after)
       || (s'.sems.mutex == s.sems.mutex + 1 && s'.hist.holder == None && before && !after)
  }

  lemma MutexMoveKeeps(s: State, i: nat, s': State)
    requires MutexOk(s.sems.mutex, s.hist.holder, s.b.main, s.clients) && MutexMove(s, i, s')
    ensures MutexOk(s'.sems.mutex, s'.hist.holder, s'.b.main, s'.clients)
  {
  }

  /** What a client in a service may do to the handshake tokens. */
  predicate ClientHand(pos: Pos, rec: nat, send: nat, pos': Pos, rec': nat, send': nat) {
    || (pos == pos' && rec' == rec && send' == send)
    || (pos.Invited? && pos'.SeatedQ? && rec' == rec && send' == send)
    || (pos.Woken? && pos'.SeatedW? && rec' == rec && send' == send)
    || (((pos.SeatedQ? && pos'.WaitingQ?) || (pos.SeatedW? && pos'.WaitingW?)
         || ((pos.LeavingQ? || pos.LeavingW?) && pos'.Out?)) && rec' == rec + 1 && send' == send)
    || (((pos.Killed? && pos'.Woken?) || (pos.WaitingQ? && pos'.LeavingQ?) || (pos.WaitingW? && pos'.LeavingW?))
        && send > 0 && send' == send - 1 && rec' == rec)
  }

  lemma HandshakeGoesOn(stage: Stage, pos: Pos, rec: nat, send: nat, pos': Pos, rec': nat, send': nat)
    requires Handshake(stage, pos, rec, send) && ClientHand(pos, rec, send, pos', rec', send')
    ensures Handshake(stage, pos', rec', send')
  {
  }

  ghost predicate TokenMove(s: State, i: nat, s': State) {
    && i < |s.clients| && i < |s'.clients| && s'.clients == s.clients[i := s'.clients[i]] && s'.b == s.b
    && ClientHand(PosOf(s.clients[i]), s.sems.rec, s.sems.send, PosOf(s'.clients[i]), s'.sems.rec, s'.sems.send)
  }

  lemma TokenMoveKeeps(s: State, i: nat, s': State)
    requires TokensOk(StageOf(s.b), Customer(s.b), s.clients, s.sems.rec, s.sems.send) && TokenMove(s, i, s')
    ensures TokensOk(StageOf(s'.b), Customer(s'.b), s'.clients, s'.sems.rec, s'.sems.send)
  {
    if i == Customer(s.b) {
      HandshakeGoesOn(StageOf(s.b), PosOf(s.clients[i]), s.sems.rec, s.sems.send,
                      PosOf(s'.clients[i]), s'.sems.rec, s'.sems.send);
    }
    hide PosOf, StageOf, Customer, Handshake;
  }

  // ---------- a client's main loop ----------

  /** Before the queue, or in it. */
  predicate OnQueuePath(pc: CPc) {
    pc.CTop? || pc.CLock? || pc.CTestAwake? || pc.CTestSeats? || pc.CTakeSeat? || pc.CSend? ||
    pc.CUnlockQueued? || pc.CSpin? || pc.CCountQueued? || pc.CClear?
  }

  lemma ClientMutexQueue(c: Config, s: State, i: nat, s': State)
    requires i < |s.clients| && ClientMain(c, s, i) == Some(s') && OnQueuePath(s.clients[i].pc)
    ensures MutexMove(s, i, s')
  {
  }

  lemma ClientMutexWake(c: Config, s: State, i: nat, s': State)
    requires i < |s.clients| && ClientMain(c, s, i) == Some(s') && !OnQueuePath(s.clients[i].pc)
    ensures MutexMove(s, i, s')
  {
  }

  lemma ClientMutex(c: Config, s: State, i: nat, s': State)
    requires i < |s.clients| && ClientMain(c, s, i) == Some(s')
    ensures MutexMove(s, i, s')
  {
    hide ClientMain, MutexMove;
    if OnQueuePath(s.clients[i].pc) { ClientMutexQueue(c, s, i, s'); } else { ClientMutexWake(c, s, i, s'); }
  }

  lemma ClientLocal(c: Config, s: State, i: nat, s': State)
    requires i < |s.clients| && LocalOk(s.clients[i]) && ClientMain(c, s, i) == Some(s')
    ensures i < |s'.clients| && s'.clients == s.clients[i := s'.clients[i]] && LocalOk(s'.clients[i])
  {
  }

  lemma ClientTokens(c: Config, s: State, i: nat, s': State)
    requires i < |s.clients| && LocalOk(s.clients[i]) && ClientMain(c, s, i) == Some(s')
    requires !s.clients[i].pc.CKill?
    ensures TokenMove(s, i, s')
  {
  }

  lemma KillTokens(c: Config, s: State, i: nat, s': State)
    requires i < |s.clients| && LocalOk(s.clients[i]) && ClientMain(c, s, i) == Some(s') && s.clients[i].pc.CKill?
    requires TokensOk(StageOf(s.b), Customer(s.b), s.clients, s.sems.rec, s.sems.send)
    requires AwakeOk(s.b, s.shop, s.clients)
    ensures TokensOk(StageOf(s'.b), Customer(s'.b), s'.clients, s'.sems.rec, s'.sems.send)
  {
  }

  /** The points at which a client acts on what it knows of the barber's sleep. */
  predicate ActsOnFlag(pc: CPc) { pc.CTestAwake? || pc.CTestSeats? || pc.CTakeSeat? || pc.CSend? || pc.CKill? }

  /** Elsewhere its step leaves flag, seats, queue and barber alone. */
  lemma ClientAside(c: Config, s: State, i: nat, s': State)
    requires i < |s.clients| && ClientMain(c, s, i) == Some(s') && !ActsOnFlag(s.clients[i].pc)
    ensures s'.b == s.b && s'.shop == s.shop && i < |s'.clients| && s'.clients == s.clients[i := s'.clients[i]]
    ensures !ActsOnFlag(s'.clients[i].pc) || s'.clients[i].pc.CTestAwake?
    ensures !s'.clients[i].pc.CSend? && !s.clients[i].pc.CSend?
    ensures s'.hist.holder == s.hist.holder || s'.hist.holder == None || (s.sems.mutex > 0 && s'.hist.holder == Some(AClient(i)))
    ensures s.hist.holder.Some? && s'.hist.holder != s.hist.holder && s.sems.mutex == 0 ==> ClientHolds(s.clients[i].pc)
  {
  }

  lemma AwakeAside(b: Barber, shop: Shop, clients: seq<Client>, i: nat, d: Client)
    requires AwakeOk(b, shop, clients) && i < |clients| && (!ActsOnFlag(d.pc) || d.pc.CTestAwake?)
    ensures AwakeOk(b, shop, clients[i := d])
  {
  }

  /** A client about to test the flag holds the mutex, so no wakeup is under way. */
  lemma TestSeesNoWakeup(s: State, i: nat)
    requires i < |s.clients| && s.clients[i].pc.CTestAwake? && MutexOk(s.sems.mutex, s.hist.holder, s.b.main, s.clients)
    requires TokensOk(StageOf(s.b), Customer(s.b), s.clients, s.sems.rec, s.sems.send)
    requires AwakeOk(s.b, s.shop, s.clients)
    ensures s.b.pending.None? && !s.b.handler.HWake?
  {
    assert StageOf(s.b).WakingUp? ==> Customer(s.b) < |s.clients| && PosOf(s.clients[Customer(s.b)]).Killed?;
  }

  lemma AwakeAtTest(c: Config, s: State, i: nat, s': State)
    requires i < |s.clients| && s.clients[i].pc.CTestAwake? && ClientMain(c, s, i) == Some(s')
    requires s.b.pending.None? && !s.b.handler.HWake? && AwakeOk(s.b, s.shop, s.clients)
    ensures AwakeOk(s'.b, s'.shop, s'.clients)
  {
  }

  lemma AwakeAtSeat(c: Config, s: State, i: nat, s': State)
    requires i < |s.clients| && MutexOk(s.sems.mutex, s.hist.holder, s.b.main, s.clients) && ClientMain(c, s, i) == Some(s')
    requires s.clients[i].pc.CTestSeats? || s.clients[i].pc.CTakeSeat? || s.clients[i].pc.CSend?
    requires AwakeOk(s.b, s.shop, s.clients)
    ensures AwakeOk(s'.b, s'.shop, s'.clients)
  {
  }

  lemma AwakeAtKill(c: Config, s: State, i: nat, s': State)
    requires i < |s.clients| && MutexOk(s.sems.mutex, s.hist.holder, s.b.main, s.clients) && ClientMain(c, s, i) == Some(s')
    requires s.clients[i].pc.CKill? && AwakeOk(s.b, s.shop, s.clients)
    ensures AwakeOk(s'.b, s'.shop, s'.clients)
  {
  }

  lemma ClientAwake(c: Config, s: State, i: nat, s': State)
    requires i < |s.clients| && MutexOk(s.sems.mutex, s.hist.holder, s.b.main, s.clients) && ClientMain(c, s, i) == Some(s')
    requires TokensOk(StageOf(s.b), Customer(s.b), s.clients, s.sems.rec, s.sems.send)
    requires AwakeOk(s.b, s.shop, s.clients)
    ensures AwakeOk(s'.b, s'.shop, s'.clients)
  {
    hide MutexOk, TokensOk, AwakeOk, ClientMain;
    var pc := s.clients[i].pc;
    if !ActsOnFlag(pc) {
      ClientAside(c, s, i, s');
      AwakeAside(s.b, s.shop, s.clients, i, s'.clients[i]);
    } else if pc.CTestAwake? {
      TestSeesNoWakeup(s, i);
      AwakeAtTest(c, s, i, s');
    } else if pc.CKill? {
      AwakeAtKill(c, s, i, s');
    } else {
      AwakeAtSeat(c, s, i, s');
    }
  }

  lemma SeatsAtFlag(c: Config, s: State, i: nat, s': State)
    requires i < |s.clients| && MutexOk(s.sems.mutex, s.hist.holder, s.b.main, s.clients) && ClientMain(c, s, i) == Some(s')
    requires SeatsOk(c, s.b.main, s.shop, Sending(s.hist.holder, s.clients), s.clients) && ActsOnFlag(s.clients[i].pc)
    ensures SeatsOk(c, s'.b.main, s'.shop, Sending(s'.hist.holder, s'.clients), s'.clients)
  {
  }

  lemma SeatsAside(c: Config, s: State, i: nat, s': State)
    requires i < |s.clients| && MutexOk(s.sems.mutex, s.hist.holder, s.b.main, s.clients) && ClientMain(c, s, i) == Some(s')
    requires SeatsOk(c, s.b.main, s.shop, Sending(s.hist.holder, s.clients), s.clients) && !ActsOnFlag(s.clients[i].pc)
    ensures SeatsOk(c, s'.b.main, s'.shop, Sending(s'.hist.holder, s'.clients), s'.clients)
  {
    ClientAside(c, s, i, s');
    hide ClientMain;
  }

  lemma ClientSeats(c: Config, s: State, i: nat, s': State)
    requires i < |s.clients| && MutexOk(s.sems.mutex, s.hist.holder, s.b.main, s.clients) && ClientMain(c, s, i) == Some(s')
    requires SeatsOk(c, s.b.main, s.shop, Sending(s.hist.holder, s.clients), s.clients)
    ensures SeatsOk(c, s'.b.main, s'.shop, Sending(s'.hist.holder, s'.clients), s'.clients)
  {
    hide MutexOk, SeatsOk, ClientMain;
    if ActsOnFlag(s.clients[i].pc) { SeatsAtFlag(c, s, i, s'); } else { SeatsAside(c, s, i, s'); }
  }

  lemma ClientQueues(c: Config, s: State, i: nat, s': State)
    requires i < |s.clients| && LocalOk(s.clients[i]) && ClientMain(c, s, i) == Some(s')
    requires QueueOk(s.b.main, s.b.guest, s.shop.queue, s.clients)
    requires s.clients[i].pc.CSend?
    ensures QueueOk(s'.b.main, s'.b.guest, s'.shop.queue, s'.clients)
  {
  }

  /** No step of a client's loop but joining the queue changes who waits in it. */
  lemma WaitsUnchanged(c: Config, s: State, i: nat, s': State)
    requires i < |s.clients| && LocalOk(s.clients[i]) && ClientMain(c, s, i) == Some(s') && !s.clients[i].pc.CSend?
    ensures i < |s'.clients| && Waits(s'.clients[i]) == Waits(s.clients[i])
    ensures s'.b.main == s.b.main && s'.b.guest == s.b.guest && s'.shop.queue == s.shop.queue
    ensures !(s.clients[i].pc.CSpin? && Waits(s.clients[i]))
  {
  }

  lemma ClientWaits(c: Config, s: State, i: nat, s': State)
    requires i < |s.clients| && LocalOk(s.clients[i]) && ClientMain(c, s, i) == Some(s')
    requires QueueOk(s.b.main, s.b.guest, s.shop.queue, s.clients)
    requires !s.clients[i].pc.CSend?
    ensures QueueOk(s'.b.main, s'.b.guest, s'.shop.queue, s'.clients)
  {
    hide ClientMain, Waits, LocalOk;
    ClientLocal(c, s, i, s');
    WaitsUnchanged(c, s, i, s');
  }

  /** A client that counts a shave off has had it. */
  lemma ClientAccount(c: Config, s: State, i: nat, s': State)
    requires i < |s.clients| && LocalOk(s.clients[i]) && ClientMain(c, s, i) == Some(s')
    requires !s.clients[i].pc.CSit? && !s.clients[i].pc.CAwaitShave? && !s.clients[i].pc.CKill?
    ensures s'.hist.shaves == s.hist.shaves && s'.b == s.b && i < |s'.clients|
    ensures forall stage, customer ::
              (s'.clients[i].remaining - Owed(s'.clients[i], stage, customer)
               == s.clients[i].remaining - Owed(s.clients[i], stage, customer))
  {
  }

  lemma ClientGetsUp(c: Config, s: State, i: nat, s': State)
    requires i < |s.clients| && LocalOk(s.clients[i]) && ClientMain(c, s, i) == Some(s')
    requires s.clients[i].pc.CSit? || s.clients[i].pc.CAwaitShave? || s.clients[i].pc.CKill?
    requires TokensOk(StageOf(s.b), Customer(s.b), s.clients, s.sems.rec, s.sems.send)
    requires AwakeOk(s.b, s.shop, s.clients)
    ensures s'.hist.shaves == s.hist.shaves && i < |s'.clients|
    ensures s'.clients[i].remaining - Owed(s'.clients[i], StageOf(s'.b), i == Customer(s'.b))
         == s.clients[i].remaining - Owed(s.clients[i], StageOf(s.b), i == Customer(s.b))
  {
  }

  lemma OthersOwe(c: Config, s: State, i: nat, s': State, j: nat)
    requires i < |s.clients| && ClientMain(c, s, i) == Some(s')
    requires AwakeOk(s.b, s.shop, s.clients)
    requires j < |s.clients| && j != i
    ensures Owed(s.clients[j], StageOf(s'.b), j == Customer(s'.b)) == Owed(s.clients[j], StageOf(s.b), j == Customer(s.b))
  {
  }

  lemma ClientTokensKeep(c: Config, s: State, i: nat, s': State)
    requires i < |s.clients| && LocalOk(s.clients[i]) && ClientMain(c, s, i) == Some(s')
    requires TokensOk(StageOf(s.b), Customer(s.b), s.clients, s.sems.rec, s.sems.send)
    requires AwakeOk(s.b, s.shop, s.clients)
    ensures TokensOk(StageOf(s'.b), Customer(s'.b), s'.clients, s'.sems.rec, s'.sems.send)
  {
    hide ClientMain, TokensOk, AwakeOk, LocalOk, TokenMove;
    if s.clients[i].pc.CKill? {
      KillTokens(c, s, i, s');
    } else {
      ClientTokens(c, s, i, s');
      TokenMoveKeeps(s, i, s');
    }
  }

  lemma ClientQueueKeeps(c: Config, s: State, i: nat, s': State)
    requires i < |s.clients| && LocalOk(s.clients[i]) && ClientMain(c, s, i) == Some(s')
    requires QueueOk(s.b.main, s.b.guest, s.shop.queue, s.clients)
    ensures QueueOk(s'.b.main, s'.b.guest, s'.shop.queue, s'.clients)
  {
    hide ClientMain, QueueOk, LocalOk;
    if s.clients[i].pc.CSend? { ClientQueues(c, s, i, s'); } else { ClientWaits(c, s, i, s'); }
  }

  lemma ClientAccountsKeep(c: Config, s: State, i: nat, s': State)
    requires i < |s.clients| && LocalOk(s.clients[i]) && ClientMain(c, s, i) == Some(s')
    requires TokensOk(StageOf(s.b), Customer(s.b), s.clients, s.sems.rec, s.sems.send)
    requires AwakeOk(s.b, s.shop, s.clients) && AccountsOk(c, StageOf(s.b), Customer(s.b), s.clients, s.hist.shaves)
    ensures AccountsOk(c, StageOf(s'.b), Customer(s'.b), s'.clients, s'.hist.shaves)
  {
    hide ClientMain, TokensOk, AwakeOk, LocalOk, Owed, StageOf, Customer;
    ClientLocal(c, s, i, s');
    if s.clients[i].pc.CSit? || s.clients[i].pc.CAwaitShave? || s.clients[i].pc.CKill? {
      ClientGetsUp(c, s, i, s');
    } else {
      ClientAccount(c, s, i, s');
    }
    forall j | 0 <= j < |s.clients| && j != i
      ensures Owed(s.clients[j], StageOf(s'.b), j == Customer(s'.b)) == Owed(s.clients[j], StageOf(s.b), j == Customer(s.b))
    {
      OthersOwe(c, s, i, s', j);
    }
  }

  lemma ClientMainKeeps(c: Config, s: State, i: nat, s': State)
    requires Inv(c, s) && i < |s.clients| && ClientMain(c, s, i) == Some(s')
    ensures Inv(c, s')
  {
    hide ClientMain, LocalOk, MutexMove, MutexOk, TokensOk, AwakeOk, SeatsOk, QueueOk, AccountsOk;
    ClientMutex(c, s, i, s');
    MutexMoveKeeps(s, i, s');
    ClientLocal(c, s, i, s');
    ClientAwake(c, s, i, s');
    ClientSeats(c, s, i, s');
    ClientQueueKeeps(c, s, i, s');
    ClientTokensKeep(c, s, i, s');
    ClientAccountsKeep(c, s, i, s');
    ClientHistory(c, s, i, s');
  }

  lemma ClientHistory(c: Config, s: State, i: nat, s': State)
    requires i < |s.clients| && ClientMain(c, s, i) == Some(s')
    requires s.hist.joined == s.hist.called + s.shop.queue
    ensures s'.hist.joined == s'.hist.called + s'.shop.queue
  {
  }

  // ---------- a client's handler ----------

  ghost predicate ClientSignal(s: State, i: nat, s': State) {
    i < |s.clients| && (ClientHandler(s, i) == Some(s') || ClientInterrupt(s, i) == Some(s'))
  }

  lemma SignalMove(s: State, i: nat, s': State)
    requires ClientSignal(s, i, s') && LocalOk(s.clients[i])
    ensures s'.clients == s.clients[i := s'.clients[i]] && s'.b == s.b && s'.shop == s.shop && s'.hist == s.hist
    ensures s'.sems.mutex == s.sems.mutex && s'.clients[i].pc == s.clients[i].pc
    ensures LocalOk(s'.clients[i]) && !Waits(s'.clients[i]) && !Waits(s.clients[i])
    ensures s'.clients[i].remaining == s.clients[i].remaining
    ensures TokenMove(s, i, s')
  {
  }

  lemma SignalAccount(s: State, i: nat, s': State)
    requires ClientSignal(s, i, s') && LocalOk(s.clients[i])
    requires TokensOk(StageOf(s.b), Customer(s.b), s.clients, s.sems.rec, s.sems.send)
    ensures i < |s'.clients|
    ensures Owed(s'.clients[i], StageOf(s.b), i == Customer(s.b)) == Owed(s.clients[i], StageOf(s.b), i == Customer(s.b))
  {
  }

  lemma ClientSignalKeeps(c: Config, s: State, i: nat, s': State)
    requires Inv(c, s) && ClientSignal(s, i, s')
    ensures Inv(c, s')
  {
    hide TokensOk;
    SignalMove(s, i, s');
    SignalAccount(s, i, s');
    TokenMoveKeeps(s, i, s');
    hide ClientSignal, LocalOk, Owed, StageOf, Customer, TokenMove, Waits;
  }

  // ---------- the barber's main loop ----------

  lemma BarberMutex(s: State, s': State)
    requires MutexOk(s.sems.mutex, s.hist.holder, s.b.main, s.clients) && BarberMain(s) == Some(s')
    ensures MutexOk(s'.sems.mutex, s'.hist.holder, s'.b.main, s'.clients)
  {
  }

  lemma BarberTokensTaking(s: State, s': State)
    requires BarberMain(s) == Some(s') && (s.b.main.BAwaitSit? || s.b.main.BAwaitLeave?)
    requires TokensOk(StageOf(s.b), Customer(s.b), s.clients, s.sems.rec, s.sems.send)
    requires AwakeOk(s.b, s.shop, s.clients)
    ensures TokensOk(StageOf(s'.b), Customer(s'.b), s'.clients, s'.sems.rec, s'.sems.send)
  {
  }

  lemma BarberTokensElse(s: State, s': State)
    requires BarberMain(s) == Some(s') && !s.b.main.BAwaitSit? && !s.b.main.BAwaitLeave?
    requires AwakeOk(s.b, s.shop, s.clients) && QueueOk(s.b.main, s.b.guest, s.shop.queue, s.clients)
    requires TokensOk(StageOf(s.b), Customer(s.b), s.clients, s.sems.rec, s.sems.send)
    ensures TokensOk(StageOf(s'.b), Customer(s'.b), s'.clients, s'.sems.rec, s'.sems.send)
  {
  }

  lemma BarberTokens(c: Config, s: State, s': State)
    requires BarberMain(s) == Some(s')
    requires AwakeOk(s.b, s.shop, s.clients) && QueueOk(s.b.main, s.b.guest, s.shop.queue, s.clients)
    requires TokensOk(StageOf(s.b), Customer(s.b), s.clients, s.sems.rec, s.sems.send)
    ensures TokensOk(StageOf(s'.b), Customer(s'.b), s'.clients, s'.sems.rec, s'.sems.send)
  {
    hide BarberMain, AwakeOk, QueueOk, TokensOk;
    if s.b.main.BAwaitSit? || s.b.main.BAwaitLeave? { BarberTokensTaking(s, s'); } else { BarberTokensElse(s, s'); }
  }

  lemma BarberAwake(s: State, s': State)
    requires BarberMain(s) == Some(s') && MutexOk(s.sems.mutex, s.hist.holder, s.b.main, s.clients)
    requires AwakeOk(s.b, s.shop, s.clients)
    ensures AwakeOk(s'.b, s'.shop, s'.clients)
  {
  }

  lemma BarberSeats(c: Config, s: State, s': State)
    requires BarberMain(s) == Some(s') && MutexOk(s.sems.mutex, s.hist.holder, s.b.main, s.clients)
    requires SeatsOk(c, s.b.main, s.shop, Sending(s.hist.holder, s.clients), s.clients)
    ensures SeatsOk(c, s'.b.main, s'.shop, Sending(s'.hist.holder, s'.clients), s'.clients)
  {
  }

  lemma BarberCalls(s: State, s': State)
    requires BarberMain(s) == Some(s') && s.b.main.BReceive?
    requires MutexOk(s.sems.mutex, s.hist.holder, s.b.main, s.clients)
    requires QueueOk(s.b.main, s.b.guest, s.shop.queue, s.clients)
    ensures QueueOk(s'.b.main, s'.b.guest, s'.shop.queue, s'.clients)
  {
    if s.shop.queue != [] {
      assert s'.shop.queue == s.shop.queue[1..];
      forall i | 0 <= i < |s.clients| && Waits(s.clients[i])
        ensures i in s'.shop.queue || s'.b.guest == i
      {
        assert s.shop.queue == [s.shop.queue[0]] + s.shop.queue[1..];
      }
      hide Waits;
    }
  }

  lemma BarberInvites(s: State, s': State)
    requires BarberMain(s) == Some(s') && s.b.main.BInvite?
    requires QueueOk(s.b.main, s.b.guest, s.shop.queue, s.clients)
    ensures QueueOk(s'.b.main, s'.b.guest, s'.shop.queue, s'.clients)
  {
  }

  lemma BarberQueue(s: State, s': State)
    requires BarberMain(s) == Some(s') && MutexOk(s.sems.mutex, s.hist.holder, s.b.main, s.clients)
    requires QueueOk(s.b.main, s.b.guest, s.shop.queue, s.clients)
    ensures QueueOk(s'.b.main, s'.b.guest, s'.shop.queue, s'.clients)
  {
    if s.b.main.BReceive? {
      BarberCalls(s, s');
    } else if s.b.main.BInvite? {
      BarberInvites(s, s');
    } else {
      assert s'.shop.queue == s.shop.queue && s'.clients == s.clients && s'.b.guest == s.b.guest;
      hide Waits;
    }
  }

  lemma BarberLocal(s: State, s': State)
    requires BarberMain(s) == Some(s') && QueueOk(s.b.main, s.b.guest, s.shop.queue, s.clients)
    ensures |s'.clients| == |s.clients|
    ensures forall i :: 0 <= i < |s.clients| && LocalOk(s.clients[i]) ==> LocalOk(s'.clients[i])
  {
  }

  /** The account changes in the moment the barber announces the end of a shave. */
  lemma BarberAccounts(c: Config, s: State, s': State)
    requires BarberMain(s) == Some(s')
    requires AccountsOk(c, StageOf(s.b), Customer(s.b), s.clients, s.hist.shaves)
    requires AwakeOk(s.b, s.shop, s.clients) && QueueOk(s.b.main, s.b.guest, s.shop.queue, s.clients)
    requires TokensOk(StageOf(s.b), Customer(s.b), s.clients, s.sems.rec, s.sems.send)
    requires forall i :: 0 <= i < |s.clients| ==> LocalOk(s.clients[i])
    requires s.b.main.BFinish? || s.b.main.BAwaitLeave?
    ensures AccountsOk(c, StageOf(s'.b), Customer(s'.b), s'.clients, s'.hist.shaves)
  {
    hide QueueOk;
  }

  lemma BarberAccountsElse(c: Config, s: State, s': State)
    requires BarberMain(s) == Some(s')
    requires AccountsOk(c, StageOf(s.b), Customer(s.b), s.clients, s.hist.shaves)
    requires AwakeOk(s.b, s.shop, s.clients)
    requires !s.b.main.BFinish? && !s.b.main.BAwaitLeave?
    ensures AccountsOk(c, StageOf(s'.b), Customer(s'.b), s'.clients, s'.hist.shaves)
  {
    assert forall i :: 0 <= i < |s.clients| ==>
             Owed(s'.clients[i], StageOf(s'.b), i == Customer(s'.b)) == Owed(s.clients[i], StageOf(s.b), i == Customer(s.b));
    hide Owed, StageOf, Customer;
  }

  lemma BarberHistory(s: State, s': State)
    requires BarberMain(s) == Some(s') && s.hist.joined == s.hist.called + s.shop.queue
    ensures s'.hist.joined == s'.hist.called + s'.shop.queue
  {
    if s.shop.queue != [] {
      assert s.shop.queue == [s.shop.queue[0]] + s.shop.queue[1..];
    }
  }

  lemma BarberMainKeeps(c: Config, s: State, s': State)
    requires Inv(c, s) && BarberMain(s) == Some(s')
    ensures Inv(c, s')
  {
    hide MutexOk, TokensOk, AwakeOk, SeatsOk, QueueOk, AccountsOk;
    BarberMutex(s, s');
    BarberLocal(s, s');
    BarberTokens(c, s, s');
    BarberAwake(s, s');
    BarberSeats(c, s, s');
    BarberQueue(s, s');
    BarberHistory(s, s');
    if s.b.main.BFinish? || s.b.main.BAwaitLeave? {
      BarberAccounts(c, s, s');
    } else {
      BarberAccountsElse(c, s, s');
    }
    hide BarberMain;
  }

  // ---------- the barber's handler ----------

  ghost predicate BarberSignal(s: State, s': State) {
    BarberHandler(s) == Some(s') || BarberInterrupt(s) == Some(s')
  }

  lemma BarberSignalMove(s: State, s': State)
    requires BarberSignal(s, s') && AwakeOk(s.b, s.shop, s.clients)
    requires TokensOk(StageOf(s.b), Customer(s.b), s.clients, s.sems.rec, s.sems.send)
    ensures s'.clients == s.clients && s'.b.main == s.b.main && s'.b.guest == s.b.guest && s.b.main.BSpin?
    ensures s'.sems.mutex == s.sems.mutex && s'.shop.seated == s.shop.seated && s'.shop.queue == s.shop.queue
    ensures s'.hist == s.hist.(shaves := s'.hist.shaves)
    ensures AwakeOk(s'.b, s'.shop, s'.clients)
    ensures TokensOk(StageOf(s'.b), Customer(s'.b), s'.clients, s'.sems.rec, s'.sems.send)
  {
  }

  lemma HandlerAccounts(c: Config, s: State, s': State)
    requires BarberHandler(s) == Some(s') && !s.b.handler.HFinish?
    requires TokensOk(StageOf(s.b), Customer(s.b), s.clients, s.sems.rec, s.sems.send)
    requires AwakeOk(s.b, s.shop, s.clients) && AccountsOk(c, StageOf(s.b), Customer(s.b), s.clients, s.hist.shaves)
    ensures AccountsOk(c, StageOf(s'.b), Customer(s'.b), s'.clients, s'.hist.shaves)
  {
  }

  lemma FinishAccounts(c: Config, s: State, s': State)
    requires BarberHandler(s) == Some(s') && s.b.handler.HFinish?
    requires TokensOk(StageOf(s.b), Customer(s.b), s.clients, s.sems.rec, s.sems.send)
    requires AccountsOk(c, StageOf(s.b), Customer(s.b), s.clients, s.hist.shaves)
    ensures AccountsOk(c, StageOf(s'.b), Customer(s'.b), s'.clients, s'.hist.shaves)
  {
  }

  lemma InterruptAccounts(c: Config, s: State, s': State)
    requires BarberInterrupt(s) == Some(s')
    requires TokensOk(StageOf(s.b), Customer(s.b), s.clients, s.sems.rec, s.sems.send)
    requires AccountsOk(c, StageOf(s.b), Customer(s.b), s.clients, s.hist.shaves)
    ensures AccountsOk(c, StageOf(s'.b), Customer(s'.b), s'.clients, s'.hist.shaves)
  {
  }

  lemma BarberSignalAccounts(c: Config, s: State, s': State)
    requires BarberSignal(s, s') && AwakeOk(s.b, s.shop, s.clients)
    requires TokensOk(StageOf(s.b), Customer(s.b), s.clients, s.sems.rec, s.sems.send)
    requires AccountsOk(c, StageOf(s.b), Customer(s.b), s.clients, s.hist.shaves)
    ensures AccountsOk(c, StageOf(s'.b), Customer(s'.b), s'.clients, s'.hist.shaves)
  {
    hide BarberHandler, BarberInterrupt, TokensOk, AwakeOk, AccountsOk;
    if BarberInterrupt(s) == Some(s') {
      InterruptAccounts(c, s, s');
    } else if s.b.handler.HFinish? {
      FinishAccounts(c, s, s');
    } else {
      HandlerAccounts(c, s, s');
    }
  }

  lemma BarberSignalKeeps(c: Config, s: State, s': State)
    requires Inv(c, s) && BarberSignal(s, s')
    ensures Inv(c, s')
  {
    hide TokensOk, AwakeOk, AccountsOk, MutexOk, QueueOk, LocalOk;
    BarberSignalMove(s, s');
    BarberSignalAccounts(c, s, s');
    hide BarberSignal;
  }

  // ---------- every action ----------

  lemma StepKeepsInv(c: Config, s: State, a: Action, s': State)
    requires Inv(c, s) && Next(c, s, a) == Some(s')
    ensures Inv(c, s')
  {
    hide Inv;
    match a
    case BarberMoves => BarberMainKeeps(c, s, s');
    case BarberHandles | BarberInterrupted => BarberSignalKeeps(c, s, s');
    case ClientMoves(i) => ClientMainKeeps(c, s, i, s');
    case ClientHandles(i) => ClientSignalKeeps(c, s, i, s');
    case ClientInterrupted(i) => ClientSignalKeeps(c, s, i, s');
  }

  lemma InitClients(c: Config, n: nat)
    ensures var s := Init(c, n);
            && (forall i :: 0 <= i < n ==> LocalOk(s.clients[i]))
            && AccountsOk(c, StageOf(s.b), Customer(s.b), s.clients, s.hist.shaves)
  {
  }

  lemma InitShop(c: Config, n: nat)
    ensures var s := Init(c, n);
            && AwakeOk(s.b, s.shop, s.clients)
            && SeatsOk(c, s.b.main, s.shop, Sending(s.hist.holder, s.clients), s.clients)
            && QueueOk(s.b.main, s.b.guest, s.shop.queue, s.clients)
  {
  }

  lemma InitTokens(c: Config, n: nat)
    ensures var s := Init(c, n);
            && MutexOk(s.sems.mutex, s.hist.holder, s.b.main, s.clients)
            && TokensOk(StageOf(s.b), Customer(s.b), s.clients, s.sems.rec, s.sems.send)
  {
  }

  lemma InitInv(c: Config, n: nat)
    ensures Inv(c, Init(c, n))
  {
    hide TokensOk, AwakeOk, AccountsOk, MutexOk, QueueOk, SeatsOk, LocalOk;
    InitClients(c, n);
    InitShop(c, n);
    InitTokens(c, n);
  }

  function System(c: Config): (State, Action) -> Option<State> {
    (s, a) => Next(c, s, a)
  }

  /** s is what some run of the barber and n clients leads to. */
  ghost predicate Reaches(c: Config, n: nat, schedule: seq<Action>, s: State) {
    Exec(System(c), Init(c, n), schedule) == Some(s)
  }

  /** The shop invariant holds in every state of every run. */
  lemma EveryRunKeepsInv(c: Config, n: nat, schedule: seq<Action>, s: State)
    requires Reaches(c, n, schedule, s)
    ensures Inv(c, s)
  {
    InitInv(c, n);
    forall m, a | Inv(c, m) && System(c)(m, a).Some?
      ensures Inv(c, System(c)(m, a).value)
    {
      StepKeepsInv(c, m, a, System(c)(m, a).value);
    }
    InvariantHolds(System(c), m => Inv(c, m), Init(c, n), schedule);
  }
}
