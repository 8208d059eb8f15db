/** Every run of the barber shop is finite, up to clients that keep finding no free seat. */
module BarberTermination {
  import opened Runs
  import opened Barber
  import opened BarberInvariant

  function RankMain(pc: BPc, awake: bool): nat {
    match pc
    case BLeaveSeat => 10
    case BInvite => 9
    case BAwaitSit => 8
    case BUnlock => 7
    case BFinish => 6
    case BAwaitLeave => 5
    case BLock => 4
    case BReceive => 3
    case BSleep => 2
    case BUnlockAsleep => 1
    case BSpin => if awake then 5 else 0
  }

  /** How far the barber is from sleeping again, not counting the queue. */
  function RankBarber(b: Barber, awake: bool): nat {
    match b.handler
    case HWake => 10
    case HConfirm => 9
    case HAwaitSit => 8
    case HFinish => 7
    case HAwaitLeave => 6
    case HNone => if b.pending.Some? then 11 else RankMain(b.main, awake)
  }

  function RankPc(pc: CPc, shaved: bool): nat {
    match pc
    case CClear => 24
    case CTop => 23
    case CLock => 22
    case CTestAwake => 21
    case CTestSeats | CKill => 20
    case CTakeSeat | CUnlockFull => 19
    case CSend => 18
    case CUnlockQueued => 9
    case CSpin => if shaved then 2 else 8
    case CCountQueued => 1
    case CAwaitWoken => 8
    case CUnlockWoken => 7
    case CSit => 6
    case CAwaitShave => 5
    case CLeave => 4
    case CCountWoken => 3
    case CFinished => 0
  }

  /** How far a client is from the end of this visit. */
  function RankVisit(c: Client): nat {
    match c.handler
    case GSit => 6
    case GAwaitShave => 5
    case GLeave => 4
    case GSetShaved => 3
    case GNone => if c.pending then 7 else RankPc(c.pc, c.shaved)
  }

  function RankClient(c: Client): int { 24 * c.remaining + RankVisit(c) }

  ghost function SumClients(clients: seq<Client>): int {
    if clients == [] then 0 else RankClient(clients[0]) + SumClients(clients[1..])
  }

  lemma {:induction false} SumUpdate(clients: seq<Client>, i: nat, c: Client)
    requires i < |clients|
    ensures SumClients(clients[i := c]) == SumClients(clients) - RankClient(clients[i]) + RankClient(c)
  {
    if i == 0 {
      assert clients[i := c][1..] == clients[1..];
    } else {
      assert clients[i := c][1..] == clients[1..][i - 1 := c];
      SumUpdate(clients[1..], i - 1, c);
    }
  }

  lemma {:induction false} SumNotNegative(clients: seq<Client>)
    requires forall i :: 0 <= i < |clients| ==> clients[i].remaining >= 0
    ensures SumClients(clients) >= 0
  {
    if clients != [] {
      SumNotNegative(clients[1..]);
    }
  }

  ghost function Total(s: State): int {
    RankBarber(s.b, s.shop.awake) + 8 * |s.shop.queue| + SumClients(s.clients)
  }

  ghost function Measure(s: State): nat {
    if Total(s) >= 0 then Total(s) else 0
  }

  /** Leaving because there is no free seat is the one action that brings nothing closer. */
  predicate TurnedAway(s: State, a: Action) {
    a.ClientMoves? && a.id < |s.clients| && s.clients[a.id].pc.CUnlockFull?
  }

  function Slack(s: State, a: Action): nat { if TurnedAway(s, a) then 5 else 0 }

  lemma QueuePathLowers(c: Config, s: State, i: nat, s': State)
    requires i < |s.clients| && ClientMain(c, s, i) == Some(s') && LocalOk(s.clients[i]) && OnQueuePath(s.clients[i].pc)
    ensures s'.clients == s.clients[i := s'.clients[i]]
    ensures RankBarber(s'.b, s'.shop.awake) + 8 * |s'.shop.queue| + RankClient(s'.clients[i]) + 1
         <= RankBarber(s.b, s.shop.awake) + 8 * |s.shop.queue| + RankClient(s.clients[i]) + Slack(s, ClientMoves(i))
  {
  }

  lemma WakePathLowers(c: Config, s: State, i: nat, s': State)
    requires i < |s.clients| && ClientMain(c, s, i) == Some(s') && LocalOk(s.clients[i]) && !OnQueuePath(s.clients[i].pc)
    requires AwakeOk(s.b, s.shop, s.clients)
    ensures s'.clients == s.clients[i := s'.clients[i]]
    ensures RankBarber(s'.b, s'.shop.awake) + 8 * |s'.shop.queue| + RankClient(s'.clients[i]) + 1
         <= RankBarber(s.b, s.shop.awake) + 8 * |s.shop.queue| + RankClient(s.clients[i]) + Slack(s, ClientMoves(i))
  {
  }

  lemma ClientLowers(c: Config, s: State, i: nat, s': State)
    requires i < |s.clients| && ClientMain(c, s, i) == Some(s') && LocalOk(s.clients[i])
    requires AwakeOk(s.b, s.shop, s.clients)
    ensures s'.clients == s.clients[i := s'.clients[i]]
    ensures RankBarber(s'.b, s'.shop.awake) + 8 * |s'.shop.queue| + RankClient(s'.clients[i]) + 1
         <= RankBarber(s.b, s.shop.awake) + 8 * |s.shop.queue| + RankClient(s.clients[i]) + Slack(s, ClientMoves(i))
  {
    hide ClientMain, LocalOk, AwakeOk, RankBarber, RankClient, Slack;
    if OnQueuePath(s.clients[i].pc) { QueuePathLowers(c, s, i, s'); } else { WakePathLowers(c, s, i, s'); }
  }

  lemma SignalLowers(s: State, i: nat, s': State)
    requires ClientSignal(s, i, s') && LocalOk(s.clients[i])
    ensures s'.clients == s.clients[i := s'.clients[i]] && s'.b == s.b && s'.shop == s.shop
    ensures RankClient(s'.clients[i]) < RankClient(s.clients[i])
  {
  }

  lemma BarberLowers(s: State, s': State)
    requires BarberMain(s) == Some(s') || BarberSignal(s, s')
    requires AwakeOk(s.b, s.shop, s.clients) && QueueOk(s.b.main, s.b.guest, s.shop.queue, s.clients)
    ensures BarberSignal(s, s') ==> s'.clients == s.clients
    ensures s'.clients == s.clients ||
            (s.b.guest < |s.clients| && s'.clients == s.clients[s.b.guest := s.clients[s.b.guest].(pending := true)]
             && Waits(s.clients[s.b.guest]) && s.clients[s.b.guest].pc.CSpin?)
    ensures RankBarber(s'.b, s'.shop.awake) + 8 * |s'.shop.queue| < RankBarber(s.b, s.shop.awake) + 8 * |s.shop.queue|
  {
  }

  lemma TotalNotNegative(c: Config, s: State)
    requires Inv(c, s)
    ensures Total(s) >= 0
  {
    assert forall i :: 0 <= i < |s.clients| ==> LocalOk(s.clients[i]);
    SumNotNegative(s.clients);
    hide Inv, SumClients;
  }

  /** Every action but being turned away lowers the measure. */
  lemma IsSignal(c: Config, s: State, a: Action, s': State)
    requires Next(c, s, a) == Some(s')
    ensures a.BarberHandles? || a.BarberInterrupted? ==> BarberSignal(s, s')
    ensures a.ClientHandles? || a.ClientInterrupted? ==> ClientSignal(s, a.id, s')
  {
  }

  lemma StepLowersMeasure(c: Config, s: State, a: Action, s': State)
    requires Inv(c, s) && Next(c, s, a) == Some(s')
    ensures Measure(s') + 1 <= Measure(s) + Slack(s, a)
  {
    hide LocalOk, AwakeOk, QueueOk, MutexOk, TokensOk, SeatsOk, AccountsOk, BarberSignal, ClientSignal,
         RankBarber, RankClient, BarberMain, ClientMain, ClientHandler, ClientInterrupt, BarberHandler, BarberInterrupt;
    StepKeepsInv(c, s, a, s');
    TotalNotNegative(c, s);
    TotalNotNegative(c, s');
    IsSignal(c, s, a, s');
    match a
    case BarberHandles => BarberLowers(s, s');
    case BarberInterrupted => BarberLowers(s, s');
    case BarberMoves =>
      BarberLowers(s, s');
      if s'.clients != s.clients {
        var guest := s.clients[s.b.guest];
        InvitedIsCloser(guest);
        SumUpdate(s.clients, s.b.guest, guest.(pending := true));
      }
    case ClientMoves(i) =>
      ClientLowers(c, s, i, s');
      SumUpdate(s.clients, i, s'.clients[i]);
    case ClientHandles(i) =>
      SignalLowers(s, i, s');
      SumUpdate(s.clients, i, s'.clients[i]);
    case ClientInterrupted(i) =>
      SignalLowers(s, i, s');
      SumUpdate(s.clients, i, s'.clients[i]);
  }

  lemma InvitedIsCloser(c: Client)
    requires Waits(c) && c.pc.CSpin?
    ensures RankClient(c.(pending := true)) < RankClient(c)
  {
  }

  /** How often a run of the shop turns a client away. */
  ghost function Refusals(c: Config, s: State, schedule: seq<Action>): nat {
    if schedule == [] then 0
    else
      var front := schedule[..|schedule| - 1];
      Refusals(c, s, front) +
      match Exec(System(c), s, front)
      case None => 0
      case Some(m) => if TurnedAway(m, schedule[|schedule| - 1]) then 1 else 0
  }

  lemma {:induction false} SlackIsRefusals(c: Config, s: State, schedule: seq<Action>)
    ensures TotalSlack(System(c), Slack, s, schedule) == 5 * Refusals(c, s, schedule)
    decreases |schedule|
  {
    if schedule != [] {
      SlackIsRefusals(c, s, schedule[..|schedule| - 1]);
    }
  }

  lemma {:induction false} InitialSum(c: Config, n: nat)
    ensures SumClients(seq(n, _ => Client(CTop, GNone, false, false, c.visits))) == n * (24 * c.visits + 23)
  {
    if n > 0 {
      assert seq(n, _ => Client(CTop, GNone, false, false, c.visits))[1..]
          == seq(n - 1, _ => Client(CTop, GNone, false, false, c.visits));
      InitialSum(c, n - 1);
    }
  }

  lemma InitialMeasure(c: Config, n: nat)
    ensures Measure(Init(c, n)) == n * (24 * c.visits + 23) + 4
  {
    InitialSum(c, n);
    assert n * (24 * c.visits + 23) >= 0;
    hide SumClients;
  }

  /** A run takes at most 24 actions a visit, 23 a client and 4 more, plus 5 for every time a
      client was turned away. */
  lemma RunLength(c: Config, n: nat, schedule: seq<Action>, s: State)
    requires Reaches(c, n, schedule, s)
    ensures |schedule| <= n * (24 * c.visits + 23) + 4 + 5 * Refusals(c, Init(c, n), schedule)
  {
    hide Inv, Measure, Init, Next;
    var s0 := Init(c, n);
    InitInv(c, n);
    forall m, a | Inv(c, m) && System(c)(m, a).Some?
      ensures Inv(c, System(c)(m, a).value)
      ensures Measure(System(c)(m, a).value) + 1 <= Measure(m) + Slack(m, a)
    {
      StepKeepsInv(c, m, a, System(c)(m, a).value);
      StepLowersMeasure(c, m, a, System(c)(m, a).value);
    }
    LengthBounded(System(c), m => Inv(c, m), Measure, Slack, s0, schedule);
    SlackIsRefusals(c, s0, schedule);
    InitialMeasure(c, n);
  }
}
