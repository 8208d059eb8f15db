/** Every run of the ring programs is finite, with an explicit bound on its length. */
module RingTermination {
  import opened Runs
  import opened Ring
  import opened RingInvariant
  import opened RingSystem

  /** How far a producer is from returning, not counting the lines it may still read. */
  function RankP(pc: PPc): nat {
    match pc
    case PStore(_) => 27
    case PCountLine => 26
    case PNotify => 25
    case PUnlockCell => 19
    case PInc => 18
    case PMod => 17
    case PUnlockW => 16
    case PLockW => 15
    case PLockCell | PRelock => 14
    case PTest => 13
    case PWait => 12
    case PAsleep => 11
    case PRead => 10
    case PEofNotify => 9
    case PEofUnlockCell => 3
    case PEofUnlockW => 2
    case PSetEnd => 1
    case PDone => 0
  }

  /** How far a consumer is from sleeping or returning, not counting the lines it may still take. */
  function RankC(pc: CPc): nat {
    match pc
    case CNotify => 18
    case CUnlockCell => 12
    case CInc => 11
    case CMod => 10
    case CUnlockR => 9
    case CLockR => 8
    case CLockCell | CRelock => 7
    case CTest => 6
    case CTestEnd | CCount => 5
    case CWait | CClear => 4
    case CAsleep => 3
    case CExitUnlockCell => 2
    case CExitUnlockR => 1
    case CDone => 0
  }

  ghost function SumP(pcs: seq<PPc>): nat {
    if pcs == [] then 0 else RankP(pcs[0]) + SumP(pcs[1..])
  }

  ghost function SumC(pcs: seq<CPc>): nat {
    if pcs == [] then 0 else RankC(pcs[0]) + SumC(pcs[1..])
  }

  lemma {:induction false} SumPUpdate(pcs: seq<PPc>, i: nat, pc: PPc)
    requires i < |pcs|
    ensures SumP(pcs[i := pc]) == SumP(pcs) - RankP(pcs[i]) + RankP(pc)
  {
    if i == 0 {
      assert pcs[i := pc][1..] == pcs[1..];
    } else {
      assert pcs[i := pc][1..] == pcs[1..][i - 1 := pc];
      SumPUpdate(pcs[1..], i - 1, pc);
    }
  }

  lemma {:induction false} SumCUpdate(pcs: seq<CPc>, i: nat, pc: CPc)
    requires i < |pcs|
    ensures SumC(pcs[i := pc]) == SumC(pcs) - RankC(pcs[i]) + RankC(pc)
  {
    if i == 0 {
      assert pcs[i := pc][1..] == pcs[1..];
    } else {
      assert pcs[i := pc][1..] == pcs[1..][i - 1 := pc];
      SumCUpdate(pcs[1..], i - 1, pc);
    }
  }

  /** The part of the measure that lives in memory: lines to read, lines to take, tokens. */
  ghost function Fuel(c: Config, m: Memory): int {
    18 * (|c.file| - m.count.read) + 15 * (|c.file| - |m.buf.taken|) + 5 * (m.tokens.reading + m.tokens.writing)
  }

  ghost function Measure(c: Config, s: State): nat {
    var f := Fuel(c, s.mem) + SumP(s.prod) + SumC(s.cons);
    if f >= 0 then f else 0
  }

  /** A wakeup nobody announced sends one thread back to its test. */
  function SpuriousSlack(a: Action): nat {
    match a
    case Move(_) => 0
    case Spurious(_) => 5
  }

  lemma FuelP(c: Config, m: Memory, i: nat, pc: PPc, e: EffectP)
    requires ActP(c, m, i, pc) == e && e.DoneP?
    ensures Fuel(c, e.mem) + RankP(e.pc) + (if e.wakes then 5 else 1) <= Fuel(c, m) + RankP(pc)
  {
  }

  lemma FuelC(c: Config, m: Memory, i: nat, pc: CPc, e: EffectC)
    requires ActC(c, m, i, pc) == e && e.DoneC?
    ensures Fuel(c, e.mem) + RankC(e.pc) + (if e.wakes then 5 else 1) <= Fuel(c, m) + RankC(pc)
  {
  }

  /** A broadcast wakes at most one thread: the one that sleeps holding its global lock. */
  lemma WakeC(s: State, woken: seq<CPc>)
    requires Exclusive(s)
    requires |woken| == |s.cons| && forall j :: 0 <= j < |s.cons| ==> woken[j] == WokenC(s.cons[j])
    ensures SumC(woken) <= SumC(s.cons) + 4
  {
    var rl := s.mem.locks.read;
    if rl.Some? && s.cons[rl.value].CAsleep? {
      assert woken == s.cons[rl.value := CRelock];
      SumCUpdate(s.cons, rl.value, CRelock);
    } else {
      assert woken == s.cons;
    }
  }

  lemma WakeP(s: State, woken: seq<PPc>)
    requires Exclusive(s)
    requires |woken| == |s.prod| && forall j :: 0 <= j < |s.prod| ==> woken[j] == WokenP(s.prod[j])
    ensures SumP(woken) <= SumP(s.prod) + 4
  {
    var wl := s.mem.locks.write;
    if wl.Some? && s.prod[wl.value].PAsleep? {
      assert woken == s.prod[wl.value := PRelock];
      SumPUpdate(s.prod, wl.value, PRelock);
    } else {
      assert woken == s.prod;
    }
  }

  lemma FuelNotNegative(c: Config, s: State)
    requires Inv(c, s)
    ensures Fuel(c, s.mem) >= 0
  {
  }

  lemma ProducerLowers(c: Config, s: State, i: nat, s': State)
    requires Exclusive(s) && Next(c, s, Move(Producer(i))) == Some(s')
    ensures Fuel(c, s'.mem) + SumP(s'.prod) + SumC(s'.cons) < Fuel(c, s.mem) + SumP(s.prod) + SumC(s.cons)
  {
    hide Fuel;
    var e := ActP(c, s.mem, i, s.prod[i]);
    FuelP(c, s.mem, i, s.prod[i], e);
    SumPUpdate(s.prod, i, e.pc);
    if e.wakes {
      WakeC(s, s'.cons);
    }
    hide ActP, Exclusive;
  }

  lemma ConsumerLowers(c: Config, s: State, i: nat, s': State)
    requires Exclusive(s) && Next(c, s, Move(Consumer(i))) == Some(s')
    ensures Fuel(c, s'.mem) + SumP(s'.prod) + SumC(s'.cons) < Fuel(c, s.mem) + SumP(s.prod) + SumC(s.cons)
  {
    hide Fuel;
    var e := ActC(c, s.mem, i, s.cons[i]);
    FuelC(c, s.mem, i, s.cons[i], e);
    SumCUpdate(s.cons, i, e.pc);
    if e.wakes {
      WakeP(s, s'.prod);
    }
    hide ActC, Exclusive;
  }

  lemma SpuriousRaises(c: Config, s: State, t: Thread, s': State)
    requires Next(c, s, Spurious(t)) == Some(s')
    ensures Fuel(c, s'.mem) + SumP(s'.prod) + SumC(s'.cons) <= Fuel(c, s.mem) + SumP(s.prod) + SumC(s.cons) + 4
  {
    match t
    case Producer(i) => SumPUpdate(s.prod, i, PRelock);
    case Consumer(i) => SumCUpdate(s.cons, i, CRelock);
  }

  /** Every action lowers the measure, except that an unannounced wakeup may raise it by 4. */
  lemma StepLowersMeasure(c: Config, s: State, a: Action, s': State)
    requires Inv(c, s) && Next(c, s, a) == Some(s')
    ensures Measure(c, s') + 1 <= Measure(c, s) + SpuriousSlack(a)
  {
    StepKeepsInv(c, s, a, s');
    FuelNotNegative(c, s);
    FuelNotNegative(c, s');
    hide Core, Next, Fuel;
    match a
    case Move(Producer(i)) => ProducerLowers(c, s, i, s');
    case Move(Consumer(i)) => ConsumerLowers(c, s, i, s');
    case Spurious(t) => SpuriousRaises(c, s, t, s');
  }

  ghost function SpuriousWakeups(schedule: seq<Action>): nat {
    if schedule == [] then 0
    else SpuriousWakeups(schedule[..|schedule| - 1]) + if schedule[|schedule| - 1].Spurious? then 1 else 0
  }

  lemma {:induction false} SlackIsWakeups(c: Config, s: State, schedule: seq<Action>)
    ensures TotalSlack(System(c), (m: State, a: Action) => SpuriousSlack(a), s, schedule) <= 5 * SpuriousWakeups(schedule)
    decreases |schedule|
  {
    if schedule != [] {
      SlackIsWakeups(c, s, schedule[..|schedule| - 1]);
    }
  }

  lemma {:induction false} InitialSums(P: nat, K: nat)
    ensures SumP(seq(P, _ => PLockW)) == 15 * P
    ensures SumC(seq(K, _ => CLockR)) == 8 * K
  {
    if P > 0 {
      assert seq(P, _ => PLockW)[1..] == seq(P - 1, _ => PLockW);
      InitialSums(P - 1, 0);
    }
    if K > 0 {
      assert seq(K, _ => CLockR)[1..] == seq(K - 1, _ => CLockR);
      InitialSums(0, K - 1);
    }
  }

  /** No run is longer than this: 33 actions a line, 15 a producer, 8 a consumer, and 5 for
      every wakeup that nobody announced. */
  lemma RunLength(c: Config, P: nat, K: nat, N: nat, schedule: seq<Action>, s: State)
    requires N >= 1 && Reaches(c, P, K, N, schedule, s)
    ensures |schedule| <= 33 * |c.file| + 15 * P + 8 * K + 5 * SpuriousWakeups(schedule)
  {
    var s0 := Init(P, K, N);
    InitInv(c, P, K, N);
    var slack := (m: State, a: Action) => SpuriousSlack(a);
    forall m, a | Inv(c, m) && System(c)(m, a).Some?
      ensures Inv(c, System(c)(m, a).value)
      ensures Measure(c, System(c)(m, a).value) + 1 <= Measure(c, m) + slack(m, a)
    {
      StepKeepsInv(c, m, a, System(c)(m, a).value);
      StepLowersMeasure(c, m, a, System(c)(m, a).value);
    }
    LengthBounded(System(c), m => Inv(c, m), m => Measure(c, m), slack, s0, schedule);
    SlackIsWakeups(c, s0, schedule);
    InitialSums(P, K);
  }
}
