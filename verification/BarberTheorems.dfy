/** What the barber programs promise: handshake tokens never cross between clients, seats and
    signals are accounted for, and the shop only stops when everybody has been shaved. */
module BarberTheorems {
  import opened Runs
  import opened Barber
  import opened BarberInvariant
  import opened Pigeonhole

  predicate InService(c: Client) { !PosOf(c).Out? }

  /** The two semaphores hold one token at most between them, at most one client is in service
      (from the queue or having woken the barber), and at the top of the barber's loop there is
      no token and nobody in service. */
  lemma TokensNeverCross(c: Config, n: nat, schedule: seq<Action>, s: State)
    requires Reaches(c, n, schedule, s)
    ensures s.sems.rec + s.sems.send <= 1
    ensures forall i, j :: 0 <= i < |s.clients| && 0 <= j < |s.clients| && InService(s.clients[i]) && InService(s.clients[j]) ==> i == j
    ensures s.b.main.BLock? ==>
              s.sems.rec == 0 && s.sems.send == 0 && forall i :: 0 <= i < |s.clients| ==> !InService(s.clients[i])
  {
    EveryRunKeepsInv(c, n, schedule, s);
    hide MutexOk, SeatsOk, QueueOk, AccountsOk;
  }

  /** A token the barber sent is taken by its customer, at the point the token is meant for:
      the confirmation by the client that woke the barber, the end of the shave by the client
      in the chair. */
  lemma SentTokensArrive(c: Config, n: nat, schedule: seq<Action>, s: State, a: Action, s': State)
    requires Reaches(c, n, schedule, s)
    requires Next(c, s, a) == Some(s') && s'.sems.send < s.sems.send
    ensures (a.ClientMoves? || a.ClientHandles?) && a.id == Customer(s.b) < |s.clients|
    ensures match PosOf(s.clients[a.id])
            case Killed => StageOf(s.b).Confirmed?
            case WaitingW => StageOf(s.b).PartingW?
            case pos => pos.WaitingQ? && StageOf(s.b).Parting?
  {
    EveryRunKeepsInv(c, n, schedule, s);
    hide MutexOk, SeatsOk, QueueOk, AccountsOk;
  }

  /** A token a client sent is taken by the barber while it waits for that client, and for that
      step: first that it sits in the chair, then that it has left. */
  lemma ReceivedTokensArrive(c: Config, n: nat, schedule: seq<Action>, s: State, a: Action, s': State)
    requires Reaches(c, n, schedule, s)
    requires Next(c, s, a) == Some(s') && s'.sems.rec < s.sems.rec
    ensures (a.BarberMoves? || a.BarberHandles?) && Customer(s.b) < |s.clients|
    ensures var stage, pos := StageOf(s.b), PosOf(s.clients[Customer(s.b)]);
            || (stage.Inviting? && pos.WaitingQ?)
            || (stage.Confirmed? && pos.WaitingW?)
            || ((stage.Parting? || stage.PartingW?) && pos.Out?)
  {
    hide MutexOk, SeatsOk, QueueOk, AccountsOk, TokensOk, LocalOk, Next;
    EveryRunKeepsInv(c, n, schedule, s);
    ReceivedByBarber(c, s, a, s');
  }

  lemma ReceivedByBarber(c: Config, s: State, a: Action, s': State)
    requires TokensOk(StageOf(s.b), Customer(s.b), s.clients, s.sems.rec, s.sems.send) && AwakeOk(s.b, s.shop, s.clients)
    requires Next(c, s, a) == Some(s') && s'.sems.rec < s.sems.rec
    ensures (a.BarberMoves? || a.BarberHandles?) && Customer(s.b) < |s.clients|
    ensures var stage, pos := StageOf(s.b), PosOf(s.clients[Customer(s.b)]);
            || (stage.Inviting? && pos.WaitingQ?)
            || (stage.Confirmed? && pos.WaitingW?)
            || ((stage.Parting? || stage.PartingW?) && pos.Out?)
  {
  }

  lemma PostIsCustomers(c: Config, s: State, a: Action, s': State)
    requires TokensOk(StageOf(s.b), Customer(s.b), s.clients, s.sems.rec, s.sems.send)
    requires Next(c, s, a) == Some(s') && s'.sems.rec > s.sems.rec
    ensures (a.ClientMoves? || a.ClientHandles?) && a.id == Customer(s.b) < |s.clients| && InService(s.clients[a.id])
  {
  }

  /** Only the customer of the moment ever posts to the barber. */
  lemma OnlyCustomersPost(c: Config, n: nat, schedule: seq<Action>, s: State, a: Action, s': State)
    requires Reaches(c, n, schedule, s)
    requires Next(c, s, a) == Some(s') && s'.sems.rec > s.sems.rec
    ensures (a.ClientMoves? || a.ClientHandles?) && a.id == Customer(s.b) < |s.clients| && InService(s.clients[a.id])
  {
    hide Next, TokensOk, MutexOk, SeatsOk, QueueOk, AccountsOk, AwakeOk, LocalOk;
    EveryRunKeepsInv(c, n, schedule, s);
    PostIsCustomers(c, s, a, s');
  }

  // ---------- signals ----------

  /** A signal is delivered only on top of the spin it is meant to end, so it interrupts no
      semaphore wait of a main loop. */
  lemma SignalsInterruptOnlySpins(c: Config, n: nat, schedule: seq<Action>, s: State, a: Action, s': State)
    requires Reaches(c, n, schedule, s)
    requires Next(c, s, a) == Some(s')
    ensures a.BarberInterrupted? ==> s.b.main.BSpin? && !s.shop.awake
    ensures a.ClientInterrupted? ==> s.clients[a.id].pc.CSpin? && !s.clients[a.id].shaved
    ensures a.BarberHandles? ==> s.b.main.BSpin?
    ensures a.ClientHandles? ==> s.clients[a.id].pc.CSpin?
  {
    EveryRunKeepsInv(c, n, schedule, s);
    hide MutexOk, SeatsOk, QueueOk, AccountsOk, TokensOk;
  }

  /** No signal is sent to a process that still has one pending or in its handler, so the fact
      that signals do not queue loses none. */
  lemma SignalsNeverCoalesce(c: Config, n: nat, schedule: seq<Action>, s: State, a: Action, s': State)
    requires Reaches(c, n, schedule, s)
    requires Next(c, s, a) == Some(s')
    ensures a == BarberMoves && s.b.main.BInvite? ==>
              && s.b.guest < |s.clients| && !s.clients[s.b.guest].pending
              && s.clients[s.b.guest].handler.GNone? && s.clients[s.b.guest].pc.CSpin?
    ensures a.ClientMoves? && s.clients[a.id].pc.CKill? ==>
              s.b.pending.None? && s.b.handler.HNone? && s.b.main.BSpin? && s'.b.pending == Some(a.id)
  {
    EveryRunKeepsInv(c, n, schedule, s);
    hide SeatsOk, AccountsOk, TokensOk;
  }

  // ---------- seats ----------

  /** Whenever the mutex is free the seat counter is the length of the queue and within the
      number of seats; a sleeping barber has an empty queue; nobody is queued twice; clients are
      called in the order they joined. */
  lemma SeatAccounting(c: Config, n: nat, schedule: seq<Action>, s: State)
    requires Reaches(c, n, schedule, s)
    ensures s.sems.mutex > 0 ==> s.shop.seated == |s.shop.queue| <= c.seats
    ensures !s.shop.awake ==> s.shop.queue == []
    ensures forall j, k :: 0 <= j < k < |s.shop.queue| ==> s.shop.queue[j] != s.shop.queue[k]
    ensures s.hist.joined == s.hist.called + s.shop.queue
  {
    EveryRunKeepsInv(c, n, schedule, s);
    hide TokensOk, AccountsOk;
  }

  /** A client is refused exactly when every seat is taken: refused, it holds the mutex and the
      seats are full; and a client that finds a seat free is not refused. */
  lemma RefusedMeansFull(c: Config, n: nat, schedule: seq<Action>, s: State, i: nat)
    requires Reaches(c, n, schedule, s) && i < |s.clients|
    ensures s.clients[i].pc.CUnlockFull? ==> s.shop.seated == c.seats == |s.shop.queue|
    ensures s.clients[i].pc.CTestSeats? && Next(c, s, ClientMoves(i)).Some? ==>
              var s' := Next(c, s, ClientMoves(i)).value;
              i < |s'.clients| && (s'.clients[i].pc.CUnlockFull? <==> s.shop.seated == c.seats)
  {
    EveryRunKeepsInv(c, n, schedule, s);
    hide TokensOk, AccountsOk, QueueOk, AwakeOk;
  }

  /** A client with a seat free for it, on its way into the queue. */
  predicate Seating(c: Config, s: State, i: nat) {
    i < |s.clients| && s.clients[i].handler.GNone? &&
    ((s.clients[i].pc.CTestSeats? && s.shop.seated < c.seats) || s.clients[i].pc.CTakeSeat? || s.clients[i].pc.CSend?)
  }

  /** While a client holds the mutex nobody else changes seats, queue or that client, unless it
      is waiting to be called. */
  lemma OthersLeaveHolder(c: Config, s: State, i: nat, a: Action, s': State)
    requires i < |s.clients| && s.clients[i].handler.GNone? && !s.clients[i].pending && !BarberHolds(s.b.main)
    requires forall j :: 0 <= j < |s.clients| && j != i ==> !ClientHolds(s.clients[j].pc)
    requires a != ClientMoves(i) && Next(c, s, a) == Some(s')
    ensures i < |s'.clients| && s'.clients[i] == s.clients[i]
    ensures s'.shop.seated == s.shop.seated && s'.shop.queue == s.shop.queue && s'.hist.joined == s.hist.joined
  {
  }

  lemma HolderAlone(c: Config, s: State, i: nat)
    requires Inv(c, s) && i < |s.clients| && ClientHolds(s.clients[i].pc)
    ensures !BarberHolds(s.b.main) && forall j :: 0 <= j < |s.clients| && j != i ==> !ClientHolds(s.clients[j].pc)
    ensures s.clients[i].handler.GNone? && !s.clients[i].pending
  {
    assert LocalOk(s.clients[i]);
    hide TokensOk, AwakeOk, SeatsOk, QueueOk, AccountsOk;
  }

  lemma SeatingMoves(c: Config, s: State, i: nat, s': State)
    requires Seating(c, s, i) && Next(c, s, ClientMoves(i)) == Some(s')
    ensures |s.hist.joined| <= |s'.hist.joined|
    ensures Seating(c, s', i) || i in s'.hist.joined[|s.hist.joined|..]
  {
    if s.clients[i].pc.CSend? { assert s'.hist.joined[|s.hist.joined|..] == [i]; }
  }

  lemma SeatingGoesOn(c: Config, s: State, i: nat, a: Action, s': State)
    requires Inv(c, s) && Seating(c, s, i) && Next(c, s, a) == Some(s')
    ensures |s.hist.joined| <= |s'.hist.joined|
    ensures Seating(c, s', i) || i in s'.hist.joined[|s.hist.joined|..]
  {
    hide Inv, Next;
    if a == ClientMoves(i) {
      SeatingMoves(c, s, i, s');
    } else {
      HolderAlone(c, s, i);
      OthersLeaveHolder(c, s, i, a, s');
    }
  }

  lemma JoinedGrows(c: Config, s: State, a: Action, s': State)
    requires Next(c, s, a) == Some(s')
    ensures |s.hist.joined| <= |s'.hist.joined| && s'.hist.joined[..|s.hist.joined|] == s.hist.joined
  {
  }

  /** It joins the queue: in every continuation it is still on its way there or has joined. */
  lemma {:induction false} FreeSeatIsTaken(c: Config, n: nat, first: seq<Action>, s: State, i: nat, rest: seq<Action>, t: State)
    requires Reaches(c, n, first, s) && Seating(c, s, i) && Exec(System(c), s, rest) == Some(t)
    ensures Inv(c, t) && |s.hist.joined| <= |t.hist.joined| && t.hist.joined[..|s.hist.joined|] == s.hist.joined
    ensures Seating(c, t, i) || i in t.hist.joined[|s.hist.joined|..]
    decreases |rest|
  {
    hide Inv, Seating, Next;
    EveryRunKeepsInv(c, n, first, s);
    if rest != [] {
      var k := |rest| - 1;
      var m := Exec(System(c), s, rest[..k]).value;
      FreeSeatIsTaken(c, n, first, s, i, rest[..k], m);
      StepKeepsInv(c, m, rest[k], t);
      JoinedGrows(c, m, rest[k], t);
      var j := |s.hist.joined|;
      assert t.hist.joined[..j] == t.hist.joined[..|m.hist.joined|][..j];
      if Seating(c, m, i) {
        SeatingGoesOn(c, m, i, rest[k], t);
        if i in t.hist.joined[|m.hist.joined|..] {
          var x :| 0 <= x < |t.hist.joined| - |m.hist.joined| && t.hist.joined[|m.hist.joined|..][x] == i;
          assert t.hist.joined[j..][|m.hist.joined| - j + x] == i;
        }
      } else {
        var x :| 0 <= x < |m.hist.joined| - j && m.hist.joined[j..][x] == i;
        assert t.hist.joined[..|m.hist.joined|][j + x] == i;
        assert t.hist.joined[j..][x] == i;
      }
    }
  }

  /** A client about to send itself to a full queue; it blocks, holding the mutex. */
  ghost predicate Jammed(c: Config, s: State) {
    exists i :: 0 <= i < |s.clients| && s.clients[i].pc.CSend? && |s.shop.queue| >= c.capacity
  }

  /** There are not more seats, or not more clients, than the message queue has room, or nobody
      ever enters. */
  predicate Roomy(c: Config, n: nat) { c.seats <= c.capacity || n <= c.capacity || c.visits == 0 }

  /** A client at mq_send is not in the queue, and nobody is in it twice. */
  lemma FewerThanClients(c: Config, s: State, i: nat)
    requires Inv(c, s) && i < |s.clients| && s.clients[i].pc.CSend?
    ensures |s.shop.queue| < |s.clients|
  {
    hide TokensOk, AccountsOk, AwakeOk, MutexOk, SeatsOk;
    var q := s.shop.queue;
    assert !Waits(s.clients[i]);
    var all := q + [i];
    assert Distinct(all);
    DistinctBounded(all, |s.clients|);
  }

  /** It holds the mutex, so the seats count it and the queue. */
  lemma FewerThanSeats(c: Config, s: State, i: nat)
    requires Inv(c, s) && i < |s.clients| && s.clients[i].pc.CSend?
    ensures |s.shop.queue| < c.seats
  {
    hide TokensOk, AccountsOk, QueueOk;
  }

  lemma SomebodyEnters(c: Config, s: State, i: nat)
    requires Inv(c, s) && i < |s.clients| && s.clients[i].pc.CSend?
    ensures c.visits > 0
  {
    assert LocalOk(s.clients[i]);
    hide TokensOk, AwakeOk, MutexOk, SeatsOk, QueueOk;
  }

  /** In a roomy shop a client that sends itself to the queue finds room in it. */
  lemma QueueIsNeverFull(c: Config, n: nat, schedule: seq<Action>, s: State)
    requires Reaches(c, n, schedule, s) && Roomy(c, n)
    ensures !Jammed(c, s)
  {
    EveryRunKeepsInv(c, n, schedule, s);
    ClientCount(c, n, schedule, s);
    hide Inv;
    forall i | 0 <= i < |s.clients| && s.clients[i].pc.CSend? ensures |s.shop.queue| < c.capacity {
      FewerThanSeats(c, s, i);
      FewerThanClients(c, s, i);
      SomebodyEnters(c, s, i);
    }
  }

  // ---------- progress ----------

  ghost predicate Enabled(c: Config, s: State, a: Action) { Next(c, s, a).Some? }

  ghost predicate Stuck(c: Config, s: State) { forall a :: !Enabled(c, s, a) }

  /** The barber asleep in an empty shop and every client gone home. */
  ghost predicate Closed(s: State) {
    && s.b.main.BSpin? && s.b.handler.HNone? && s.b.pending.None? && !s.shop.awake && s.shop.queue == []
    && forall i :: 0 <= i < |s.clients| ==> s.clients[i].pc.CFinished?
  }

  /** In a service either the barber or its customer can move. */
  lemma ServiceGoesOn(c: Config, s: State) returns (a: Action)
    requires Inv(c, s) && !StageOf(s.b).Idle?
    ensures Enabled(c, s, a)
  {
    var who := Customer(s.b);
    var me := s.clients[who];
    if Next(c, s, BarberMoves).Some? {
      a := BarberMoves;
    } else if Next(c, s, BarberHandles).Some? {
      a := BarberHandles;
    } else if s.b.pending.Some? && s.b.handler.HNone? {
      a := BarberInterrupted;
    } else if me.handler != GNone {
      a := ClientHandles(who);
    } else if me.pending {
      a := ClientInterrupted(who);
    } else {
      a := ClientMoves(who);
    }
    hide MutexOk, SeatsOk, QueueOk, AccountsOk;
  }

  /** Outside a service, the client that holds the mutex can move. */
  lemma HolderGoesOn(c: Config, s: State) returns (a: Action)
    requires Inv(c, s) && !Jammed(c, s) && StageOf(s.b).Idle? && s.hist.holder.Some? && s.hist.holder.value.AClient?
    ensures Enabled(c, s, a)
  {
    var i := s.hist.holder.value.id;
    a := ClientMoves(i);
    assert PosOf(s.clients[i]).Out?;
    assert s.clients[i].pc.CSend? ==> |s.shop.queue| < c.capacity;
    hide TokensOk, AwakeOk, QueueOk, AccountsOk, SeatsOk;
  }

  /** In front of a sleeping barber and a free mutex a client that has not gone home can move. */
  lemma VisitorGoesOn(c: Config, s: State, i: nat) returns (a: Action)
    requires Inv(c, s) && StageOf(s.b).Idle? && s.b.main.BSpin? && !s.shop.awake && s.sems.mutex > 0
    requires i < |s.clients| && !s.clients[i].pc.CFinished?
    ensures Enabled(c, s, a)
  {
    a := if s.clients[i].handler == GNone then ClientMoves(i) else ClientHandles(i);
    assert PosOf(s.clients[i]).Out?;
    assert !Waits(s.clients[i]);
    hide TokensOk, AwakeOk, SeatsOk, QueueOk, AccountsOk;
  }

  lemma Mover(c: Config, s: State) returns (a: Action)
    requires Inv(c, s) && !Closed(s) && !Jammed(c, s)
    ensures Enabled(c, s, a)
  {
    hide AccountsOk, SeatsOk, LocalOk, Jammed;
    if !StageOf(s.b).Idle? {
      a := ServiceGoesOn(c, s);
    } else if s.hist.holder.Some? && s.hist.holder.value.AClient? {
      a := HolderGoesOn(c, s);
    } else if s.b.main.BSpin? && !s.shop.awake {
      var i :| 0 <= i < |s.clients| && !s.clients[i].pc.CFinished?;
      a := VisitorGoesOn(c, s, i);
    } else {
      a := BarberMoves;
    }
  }

  /** A roomy shop is stuck exactly when it is closed: barber asleep, queue empty, clients gone. */
  lemma StuckIff(c: Config, n: nat, schedule: seq<Action>, s: State)
    requires Reaches(c, n, schedule, s) && Roomy(c, n)
    ensures Stuck(c, s) <==> Closed(s)
  {
    EveryRunKeepsInv(c, n, schedule, s);
    if Closed(s) {
      assert forall i :: 0 <= i < |s.clients| ==> s.clients[i].handler.GNone? && !s.clients[i].pending;
      hide Inv;
      forall a
        ensures !Enabled(c, s, a)
      {
      }
    } else {
      QueueIsNeverFull(c, n, schedule, s);
      var a := Mover(c, s);
    }
  }

  /** By then every client has had exactly the shaves it came for. */
  lemma ClosedMeansShaved(c: Config, n: nat, schedule: seq<Action>, s: State)
    requires Reaches(c, n, schedule, s) && Roomy(c, n) && Stuck(c, s)
    ensures s.hist.shaves == seq(n, _ => c.visits)
  {
    EveryRunKeepsInv(c, n, schedule, s);
    StuckIff(c, n, schedule, s);
    ClientCount(c, n, schedule, s);
    forall i | 0 <= i < n
      ensures s.hist.shaves[i] == c.visits
    {
      assert s.clients[i].pc.CFinished?;
      assert LocalOk(s.clients[i]);
    }
  }

  lemma ClientCount(c: Config, n: nat, schedule: seq<Action>, s: State)
    requires Reaches(c, n, schedule, s)
    ensures |s.clients| == n
  {
    InvariantHolds(System(c), (m: State) => |m.clients| == n, Init(c, n), schedule);
  }

  /** At any time a client has had as many shaves as it has counted off, or one more that it
      has yet to count. */
  lemma ShavesAreCounted(c: Config, n: nat, schedule: seq<Action>, s: State, i: nat)
    requires Reaches(c, n, schedule, s) && i < |s.clients|
    ensures i < |s.hist.shaves|
    ensures 0 <= s.hist.shaves[i] - (c.visits - s.clients[i].remaining) <= 1
    ensures s.clients[i].pc.CTop? || s.clients[i].pc.CFinished? ==> s.hist.shaves[i] == c.visits - s.clients[i].remaining
  {
    EveryRunKeepsInv(c, n, schedule, s);
    assert LocalOk(s.clients[i]);
    hide MutexOk, TokensOk, AwakeOk, SeatsOk, QueueOk;
  }

  // ---------- who waits for what ----------

  /** A client is kept from its next step only while somebody holds the mutex it wants, the token
      it waits for is not there, it is not shaved, the queue is full, or it has finished. */
  lemma ClientBlockedIff(c: Config, n: nat, schedule: seq<Action>, s: State, i: nat)
    requires Reaches(c, n, schedule, s) && i < |s.clients|
    ensures var me := s.clients[i];
            Next(c, s, ClientMoves(i)).None? <==>
            || me.handler != GNone
            || (me.pc.CLock? && s.hist.holder.Some?)
            || (me.pc.CSend? && |s.shop.queue| >= c.capacity)
            || (me.pc.CSpin? && !me.shaved)
            || ((me.pc.CAwaitWoken? || me.pc.CAwaitShave?) && s.sems.send == 0)
            || me.pc.CFinished?
    ensures Next(c, s, ClientHandles(i)).None? <==>
            s.clients[i].handler == GNone || (s.clients[i].handler == GAwaitShave && s.sems.send == 0)
    ensures Next(c, s, ClientInterrupted(i)).Some? <==> s.clients[i].pending
  {
    EveryRunKeepsInv(c, n, schedule, s);
    assert LocalOk(s.clients[i]);
    hide TokensOk, AwakeOk, SeatsOk, QueueOk, AccountsOk;
  }

  /** The same of the barber. */
  lemma BarberBlockedIff(c: Config, n: nat, schedule: seq<Action>, s: State)
    requires Reaches(c, n, schedule, s)
    ensures Next(c, s, BarberMoves).None? <==>
            || s.b.handler != HNone
            || (s.b.main.BLock? && s.hist.holder.Some?)
            || ((s.b.main.BAwaitSit? || s.b.main.BAwaitLeave?) && s.sems.rec == 0)
            || (s.b.main.BSpin? && !s.shop.awake)
    ensures Next(c, s, BarberHandles).None? <==>
            s.b.handler == HNone || ((s.b.handler == HAwaitSit || s.b.handler == HAwaitLeave) && s.sems.rec == 0)
    ensures Next(c, s, BarberInterrupted).Some? <==> s.b.pending.Some?
  {
    EveryRunKeepsInv(c, n, schedule, s);
    hide TokensOk, SeatsOk, AccountsOk, LocalOk;
  }
}
