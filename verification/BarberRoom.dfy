/** When the shop is too large for the message queue.  With more seats than the queue has room,
    and enough clients to fill it, a client can block in sending while it holds the mutex; and
    then for good. */
module BarberRoom {
  import opened Runs
  import opened Barber
  import opened BarberInvariant
  import opened BarberTheorems

  // ---------- a jam lasts ----------

  /** Client i is blocked in front of a full queue. */
  predicate JammedAt(c: Config, s: State, i: nat) {
    i < |s.clients| && s.clients[i].pc.CSend? && |s.shop.queue| >= c.capacity
  }

  /** Nobody takes anything out of the queue while a client holds the mutex. */
  lemma JamStays(c: Config, s: State, i: nat, a: Action, s': State)
    requires Inv(c, s) && JammedAt(c, s, i) && Next(c, s, a) == Some(s')
    ensures JammedAt(c, s', i)
  {
    hide Inv, Next;
    HolderAlone(c, s, i);
    if a == ClientMoves(i) { JammedCannotMove(c, s, i); } else { OthersLeaveHolder(c, s, i, a, s'); }
  }

  lemma JammedCannotMove(c: Config, s: State, i: nat)
    requires JammedAt(c, s, i)
    ensures Next(c, s, ClientMoves(i)).None?
  {
  }

  lemma {:induction false} JamIsForGood(c: Config, n: nat, first: seq<Action>, s: State, i: nat, rest: seq<Action>, t: State)
    requires Reaches(c, n, first, s) && JammedAt(c, s, i) && Exec(System(c), s, rest) == Some(t)
    ensures JammedAt(c, t, i) && Inv(c, t)
    decreases |rest|
  {
    hide Inv, JammedAt, Next;
    EveryRunKeepsInv(c, n, first, s);
    if rest != [] {
      var k := |rest| - 1;
      var m := Exec(System(c), s, rest[..k]).value;
      JamIsForGood(c, n, first, s, i, rest[..k], m);
      JamStays(c, m, i, rest[k], t);
      StepKeepsInv(c, m, rest[k], t);
    }
  }

  // ---------- a run into a jam ----------

  /** The clients when the first k wait in the queue, the next is at pc, and nobody else has
      moved. */
  function Crowd(c: Config, n: nat, k: nat, pc: CPc): seq<Client> {
    seq(n, i => Client(if i < k then CSpin else if i == k then pc else CTop, GNone, false, false, c.visits))
  }

  function FirstOnes(k: nat): seq<nat> { seq(k, i requires 0 <= i => i) }

  /** Client k on its way into the queue, the barber not having moved. */
  function Arriving(c: Config, n: nat, k: nat, pc: CPc, holds: bool, seated: nat, joined: nat): State {
    State(Barber(BLock, HNone, 0, 0, None), Crowd(c, n, k, pc),
          Sems(if holds then 0 else 1, 0, 0), Shop(true, seated, FirstOnes(joined)),
          History(if holds then Some(AClient(k)) else None, seq(n, _ => 0), FirstOnes(joined), []))
  }

  /** One step of the arriving client. */
  lemma StepsOn(c: Config, n: nat, k: nat, pc: CPc, s: State, pc': CPc, s': State)
    requires CanReach(System(c), Init(c, n), s) && k < n && s.clients == Crowd(c, n, k, pc)
    requires s'.clients == Crowd(c, n, k, pc')
    requires ClientMain(c, s, k) == Some(s'.(clients := s.clients[k := s.clients[k].(pc := pc')]))
    ensures CanReach(System(c), Init(c, n), s')
  {
    assert Crowd(c, n, k, pc)[k := Crowd(c, n, k, pc)[k].(pc := pc')] == Crowd(c, n, k, pc');
    hide CanReach, ClientMain, Crowd, Init;
    Onward(System(c), Init(c, n), s, ClientMoves(k), s');
  }

  lemma ComesToSend(c: Config, n: nat, k: nat)
    requires k < n && k < c.seats && c.visits > 0
    requires CanReach(System(c), Init(c, n), Arriving(c, n, k, CTop, false, k, k))
    ensures CanReach(System(c), Init(c, n), Arriving(c, n, k, CSend, true, k + 1, k))
  {
    hide CanReach, Init;
    CrowdAt(c, n, k);
    var s0, s1 := Arriving(c, n, k, CTop, false, k, k), Arriving(c, n, k, CLock, false, k, k);
    var s2, s3 := Arriving(c, n, k, CTestAwake, true, k, k), Arriving(c, n, k, CTestSeats, true, k, k);
    var s4, s5 := Arriving(c, n, k, CTakeSeat, true, k, k), Arriving(c, n, k, CSend, true, k + 1, k);
    hide Crowd;
    StepsOn(c, n, k, CTop, s0, CLock, s1);
    StepsOn(c, n, k, CLock, s1, CTestAwake, s2);
    StepsOn(c, n, k, CTestAwake, s2, CTestSeats, s3);
    StepsOn(c, n, k, CTestSeats, s3, CTakeSeat, s4);
    StepsOn(c, n, k, CTakeSeat, s4, CSend, s5);
  }

  lemma CrowdAt(c: Config, n: nat, k: nat)
    requires k < n
    ensures forall pc :: |Crowd(c, n, k, pc)| == n && Crowd(c, n, k, pc)[k] == Client(pc, GNone, false, false, c.visits)
  {
  }

  lemma SendsAndSpins(c: Config, n: nat, k: nat)
    requires k < n && k < c.capacity
    requires CanReach(System(c), Init(c, n), Arriving(c, n, k, CSend, true, k + 1, k))
    ensures CanReach(System(c), Init(c, n), Arriving(c, n, k + 1, CTop, false, k + 1, k + 1))
  {
    hide CanReach, Init;
    CrowdAt(c, n, k);
    assert FirstOnes(k) + [k] == FirstOnes(k + 1);
    assert Crowd(c, n, k, CSpin) == Crowd(c, n, k + 1, CTop);
    var s5, s6 := Arriving(c, n, k, CSend, true, k + 1, k), Arriving(c, n, k, CUnlockQueued, true, k + 1, k + 1);
    var s7 := Arriving(c, n, k, CSpin, false, k + 1, k + 1);
    hide Crowd, FirstOnes;
    StepsOn(c, n, k, CSend, s5, CUnlockQueued, s6);
    StepsOn(c, n, k, CUnlockQueued, s6, CSpin, s7);
    assert s7 == Arriving(c, n, k + 1, CTop, false, k + 1, k + 1);
  }

  lemma {:induction false} QueueFills(c: Config, n: nat, k: nat)
    requires k < n && k < c.seats && k <= c.capacity && c.visits > 0
    ensures CanReach(System(c), Init(c, n), Arriving(c, n, k, CTop, false, k, k))
  {
    if k == 0 {
      Standing(System(c), Init(c, n));
      assert Crowd(c, n, 0, CTop) == Init(c, n).clients && FirstOnes(0) == [];
    } else {
      QueueFills(c, n, k - 1);
      ComesToSend(c, n, k - 1);
      SendsAndSpins(c, n, k - 1);
    }
  }

  /** Exactly the shops that are not roomy have a run into a jam. */
  lemma JamIff(c: Config, n: nat)
    ensures (exists schedule, s :: Reaches(c, n, schedule, s) && Jammed(c, s)) <==> !Roomy(c, n)
  {
    if Roomy(c, n) {
      forall schedule, s | Reaches(c, n, schedule, s) ensures !Jammed(c, s) {
        QueueIsNeverFull(c, n, schedule, s);
      }
    } else {
      var k := c.capacity;
      QueueFills(c, n, k);
      ComesToSend(c, n, k);
      var s := Arriving(c, n, k, CSend, true, k + 1, k);
      assert s.clients[k].pc.CSend? && |s.shop.queue| == k;
      var schedule :| Exec(System(c), Init(c, n), schedule) == Some(s);
      assert Reaches(c, n, schedule, s);
    }
  }
}
