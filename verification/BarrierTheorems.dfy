/** What the barrier's invariant means for its users. */
module BarrierTheorems {
  import opened Runs
  import opened Barrier
  import opened BarrierProof
  import opened Pigeonhole

  /** The token's place after a step, for some place before it. */
  lemma StepKeepsInv(s: State, a: Action)
    requires Inv(s) && Next(s, a).Some?
    ensures Inv(Next(s, a).value)
  {
    var h: Holder :| InvAt(s, h);
    hide InvAt;
    match a {
      case MainMoves => MainStep(s, h);
      case TakeUsr1 => DeliveryStep(s, h, a);
      case TakeChld => DeliveryStep(s, h, a);
      case TakeRt => DeliveryStep(s, h, a);
      case HandlerMoves => HandlerStep(s, h);
      case Reap(c) => ReapStep(s, h, c);
      case ChildMoves(c) => ChildStep(s, h, c);
      case TakeUsr2(c) => Usr2Step(s, h, c);
    }
  }

  ghost predicate Reaches(N: nat, K: nat, schedule: seq<Action>, s: State) {
    Exec(Next, Init(N, K), schedule) == Some(s)
  }

  lemma SizesStay(s: State, a: Action)
    requires Next(s, a).Some?
    ensures Next(s, a).value.N == s.N && Next(s, a).value.K == s.K
  {
  }

  lemma EveryRunKeepsInv(N: nat, K: nat, schedule: seq<Action>, s: State)
    requires Reaches(N, K, schedule, s)
    ensures Inv(s) && s.N == N && s.K == K
  {
    var inv := s => Inv(s) && s.N == N && s.K == K;
    InitInv(N, K);
    hide Inv;
    forall m, a | inv(m) && Next(m, a).Some? ensures inv(Next(m, a).value) {
      StepKeepsInv(m, a);
      SizesStay(m, a);
    }
    hide Next;
    InvariantHolds(Next, inv, Init(N, K), schedule);
  }

  function Holding(children: seq<Child>): nat {
    if children == [] then 0
    else Holding(children[..|children| - 1]) + if HasIt(children[|children| - 1]) then 1 else 0
  }

  lemma {:induction false} HoldingOne(children: seq<Child>, h: Holder)
    requires forall c :: 0 <= c < |children| ==> (HasIt(children[c]) <==> h == WithChild(c))
    ensures Holding(children) == if h.WithChild? && h.c < |children| then 1 else 0
  {
    if children != [] {
      HoldingOne(children[..|children| - 1], h);
    }
  }

  /** The semaphore's value, the parent while it sets up, the pending SIGUSR1 and SIGCHLD, the
      running handlers and the children inside a critical section add up to one, always. */
  lemma OneToken(N: nat, K: nat, schedule: seq<Action>, s: State)
    requires Reaches(N, K, schedule, s)
    ensures s.sem + (if s.parent.main == Forking || s.parent.main == Posting then 1 else 0)
            + (if s.parent.usr1.Some? then 1 else 0) + (if s.parent.chld.Some? then 1 else 0)
            + |s.parent.frames| + Holding(s.children) == 1
  {
    EveryRunKeepsInv(N, K, schedule, s);
    hide RequestsOk, PermitsOk, Worked, LocalOk;
    var h: Holder :| InvAt(s, h);
    forall c | 0 <= c < |s.children| ensures HasIt(s.children[c]) <==> h == WithChild(c) {
      assert ChildHolds(s.children[c], c, h, s.parent);
    }
    HoldingOne(s.children, h);
  }

  /** No signal is lost: a child that sends SIGUSR1, or that exits, finds neither of the two
      pending nor in a handler; and SIGUSR2 is never sent to a child that was sent one before. */
  lemma NoSignalIsLost(N: nat, K: nat, schedule: seq<Action>, s: State, c: nat)
    requires Reaches(N, K, schedule, s) && c < |s.children|
    ensures s.children[c].pc == Requesting || s.children[c].pc == Exiting ==>
              s.parent.usr1.None? && s.parent.chld.None? && s.parent.frames == []
    ensures s.children[c].permits <= 1
    ensures s.children[c].usr2 ==> s.children[c].permits == 1 && !s.children[c].worked
  {
    EveryRunKeepsInv(N, K, schedule, s);
    hide RequestsOk, PermitsOk, Worked;
    var h: Holder :| InvAt(s, h);
    assert ChildHolds(s.children[c], c, h, s.parent) && LocalOk(s.children[c]);
  }

  /** Between handlers: each child has asked at most once; after k requests nobody has been
      permitted if k < K, and exactly the k children that asked, once each, if k >= K. */
  lemma PermittedChildren(N: nat, K: nat, schedule: seq<Action>, s: State)
    requires Reaches(N, K, schedule, s) && s.parent.frames == []
    ensures s.parent.k == |s.parent.handled| <= N
    ensures forall i, j :: 0 <= i < j < s.parent.k ==> s.parent.handled[i] != s.parent.handled[j]
    ensures forall c :: 0 <= c < |s.children| ==>
              s.children[c].permits == if s.parent.k >= K && c in s.parent.handled then 1 else 0
    ensures forall c :: 0 <= c < |s.children| ==>
              (c in s.parent.handled <==> Sent(s.children[c].pc) && s.parent.usr1 != Some(c))
  {
    EveryRunKeepsInv(N, K, schedule, s);
    hide Worked, LocalOk;
    var h: Holder :| InvAt(s, h);
    DistinctBounded(s.parent.handled, |s.children|);
    forall c | 0 <= c < |s.children|
      ensures c in s.parent.handled <==> Sent(s.children[c].pc) && s.parent.usr1 != Some(c)
      ensures s.children[c].permits == if s.parent.k >= K && c in s.parent.handled then 1 else 0
    {
      assert ChildHolds(s.children[c], c, h, s.parent);
      if c in s.parent.handled {
        var i :| 0 <= i < |s.parent.handled| && s.parent.handled[i] == c;
      }
    }
  }

  /** wait() in the SIGCHLD handler returns the very child that sent the signal. */
  lemma ReapedIsSender(N: nat, K: nat, schedule: seq<Action>, s: State, c: nat)
    requires Reaches(N, K, schedule, s) && StepReap(s, c).Some?
    ensures s.parent.frames == [Chld(c, false)]
  {
    EveryRunKeepsInv(N, K, schedule, s);
    hide RequestsOk, PermitsOk, Worked, LocalOk;
    var h: Holder :| InvAt(s, h);
    assert ChildHolds(s.children[c], c, h, s.parent);
  }

  lemma {:induction false} WorkedAll(children: seq<Child>)
    ensures Worked(children) <= |children|
    ensures Worked(children) == |children| <==> forall c :: 0 <= c < |children| ==> children[c].worked
    ensures Worked(children) == 0 <==> forall c :: 0 <= c < |children| ==> !children[c].worked
  {
    if children != [] {
      var front := children[..|children| - 1];
      WorkedAll(front);
      assert forall c :: 0 <= c < |front| ==> front[c] == children[c];
    }
  }

  /** Until K requests have been handled no child works; when the parent leaves its loop every
      child has been permitted and has worked. */
  lemma WorkFollowsPermission(N: nat, K: nat, schedule: seq<Action>, s: State)
    requires Reaches(N, K, schedule, s)
    ensures s.parent.k < K ==> s.parent.n == 0 && s.parent.rt == 0
    ensures s.parent.main == Over ==>
              |s.children| == N && forall c :: 0 <= c < N ==> s.children[c].worked && s.children[c].permits == 1
    ensures s.parent.main == Over && N > 0 ==> K <= N
  {
    EveryRunKeepsInv(N, K, schedule, s);
    var h: Holder :| InvAt(s, h);
    WorkedAll(s.children);
    DistinctBounded(s.parent.handled, |s.children|);
    WorkIsPermitted(s, h);
    hide LocalOk, ChildHolds, PermitsOk, Worked;
    if s.parent.main == Over && N > 0 { assert s.children[0].worked; }
  }

  lemma WorkIsPermitted(s: State, h: Holder)
    requires InvAt(s, h)
    ensures forall c :: 0 <= c < |s.children| && s.children[c].worked ==> s.children[c].permits == 1 && s.parent.k >= s.K
  {
    forall c | 0 <= c < |s.children| && s.children[c].worked
      ensures s.children[c].permits == 1 && s.parent.k >= s.K
    {
      assert LocalOk(s.children[c]);
      assert c in s.parent.handled;
      var i :| 0 <= i < |s.parent.handled| && s.parent.handled[i] == c;
      assert i < Permitted(s.parent.frames, s.parent.k, s.K);
    }
  }

  /** Nobody has anything left to do but wait for a signal, and no signal is on its way. */
  predicate Hung(s: State) {
    && s.parent.main == Pausing && s.parent.frames == []
    && s.parent.usr1.None? && s.parent.chld.None? && s.parent.rt == 0
    && forall c :: 0 <= c < |s.children| ==> Quiet(s.children[c])
  }

  lemma HandlerMover(s: State, h: Holder) returns (a: Action)
    requires InvAt(s, h) && s.parent.frames != [] && s.parent.main != Over
    ensures Next(s, a).Some?
  {
    hide LocalOk, PermitsOk, Worked, MainOk;
    var p := s.parent;
    var f := p.frames[0];
    assert |p.frames| == 1;
    if f.Chld? && !f.reaped {
      assert ChildHolds(s.children[f.c], f.c, h, p);
      a := Reap(f.c);
    } else {
      a := HandlerMoves;
      if f.Usr1? && f.phase == Record {
        assert ChildHolds(s.children[f.c], f.c, h, p);
        var all := p.handled + [f.c];
        assert Distinct(all);
        DistinctBounded(all, |s.children|);
      }
      DistinctBounded(p.handled, |s.children|);
    }
  }

  predicate Quiet(ch: Child) {
    (ch.pc == Paused || ch.pc == Reaped) && ch.handler == NoHandler && !ch.usr2
  }

  /** With no signal on its way, a child that is not quiet can move if it has the token or if
      the semaphore has it. */
  lemma ChildMover(s: State, h: Holder, c: nat) returns (a: Action)
    requires InvAt(s, h) && s.parent.main != Over && s.parent.frames == [] && c < |s.children|
    requires h == WithChild(c) || (h == InSemaphore && !Quiet(s.children[c]))
    ensures Next(s, a).Some?
  {
    hide RequestsOk, PermitsOk, Worked, MainOk;
    assert ChildHolds(s.children[c], c, h, s.parent) && LocalOk(s.children[c]);
    hide ChildHolds;
    a := if s.children[c].usr2 then TakeUsr2(c) else ChildMoves(c);
  }

  /** Someone can move unless the program is over or hung. */
  lemma Mover(N: nat, K: nat, schedule: seq<Action>, s: State) returns (a: Action)
    requires Reaches(N, K, schedule, s) && s.parent.main != Over && !Hung(s)
    ensures Next(s, a).Some?
  {
    EveryRunKeepsInv(N, K, schedule, s);
    var h: Holder :| InvAt(s, h);
    hide RequestsOk, PermitsOk, Worked, LocalOk, ChildHolds, StepChild;
    var p := s.parent;
    if p.frames != [] {
      a := HandlerMover(s, h);
    } else if p.usr1.Some? {
      a := TakeUsr1;
    } else if p.chld.Some? {
      a := TakeChld;
    } else if p.rt > 0 {
      a := TakeRt;
    } else if p.main != Pausing {
      a := MainMoves;
    } else {
      var c :| 0 <= c < |s.children| && (h == WithChild(c) || (h == InSemaphore && !Quiet(s.children[c])));
      a := ChildMover(s, h, c);
    }
  }

  ghost predicate Stuck(s: State) { forall a :: Next(s, a).None? }

  /** The states in which nothing can happen any more. */
  lemma StuckIff(N: nat, K: nat, schedule: seq<Action>, s: State)
    requires Reaches(N, K, schedule, s)
    ensures Stuck(s) <==> s.parent.main == Over || Hung(s)
  {
    if s.parent.main != Over && !Hung(s) {
      var a := Mover(N, K, schedule, s);
    }
  }

  /** What has happened when the program hangs: either there are fewer children than K, all of
      them asked and nobody works; or every child has worked and been counted, and the parent
      missed that because its last signal came between its test and its pause. */
  lemma WhatHungMeans(N: nat, K: nat, schedule: seq<Action>, s: State)
    requires Reaches(N, K, schedule, s) && Hung(s)
    ensures |s.children| == N == s.parent.k
    ensures K > N ==> s.parent.n == 0 && forall c :: 0 <= c < N ==> s.children[c].pc == Paused && s.children[c].permits == 0
    ensures K <= N ==> s.parent.n == N && forall c :: 0 <= c < N ==> s.children[c].worked
  {
    EveryRunKeepsInv(N, K, schedule, s);
    PermittedChildren(N, K, schedule, s);
    var h: Holder :| InvAt(s, h);
    WorkedAll(s.children);
    forall c | 0 <= c < N ensures c in s.parent.handled && LocalOk(s.children[c]) {
      assert Sent(s.children[c].pc) && LocalOk(s.children[c]);
    }
    AllPresent(s.parent.handled, N);
    hide ChildHolds, PermitsOk, Worked, RequestsOk;
  }

  /** The program with one child and K = 1 while no SIGCHLD is about. */
  function One(sem: nat, main: Main, frames: seq<Frame>, usr1: Option<nat>, rt: nat, n: nat, handled: seq<nat>, ch: Child): State {
    State(1, 1, sem, Parent(main, frames, usr1, None, rt, n, |handled|, [0], handled), [ch])
  }

  lemma ChildAsks(s0: State)
    requires s0 == Init(1, 1)
    ensures CanReach(Next, s0, One(0, Test, [], Some(0), 0, 0, [], Child(Requested, NoHandler, false, 0, false)))
  {
    hide CanReach;
    Standing(Next, s0);
    assert seq(1, _ => 0 as nat) == [0];
    var ch := Child(Asleep, NoHandler, false, 0, false);
    assert [] + [ch] == [ch];
    Onward(Next, s0, s0, MainMoves, One(0, Forking, [], None, 0, 0, [], ch));
    Onward(Next, s0, One(0, Forking, [], None, 0, 0, [], ch), MainMoves, One(0, Posting, [], None, 0, 0, [], ch));
    Onward(Next, s0, One(0, Posting, [], None, 0, 0, [], ch), MainMoves, One(1, Test, [], None, 0, 0, [], ch));
    ChildOnward(s0, 1, Test, None, 0, 0, [], ch);
    var ch1 := ch.(pc := WantsRequest);
    ChildOnward(s0, 1, Test, None, 0, 0, [], ch1);
    var ch2 := ch.(pc := Requesting);
    ChildOnward(s0, 0, Test, None, 0, 0, [], ch2);
  }

  /** One step of the child. */
  lemma ChildOnward(s0: State, sem: nat, main: Main, usr1: Option<nat>, rt: nat, n: nat, handled: seq<nat>, ch: Child)
    requires CanReach(Next, s0, One(sem, main, [], usr1, rt, n, handled, ch)) && main != Over && StepChild(ch).Some?
    requires sem + StepChild(ch).value.1 >= 0 && usr1.None? && ch.pc != Exiting
    ensures CanReach(Next, s0, One(sem + StepChild(ch).value.1, main, [],
                             if ch.handler == NoHandler && ch.pc == Requesting then Some(0) else usr1,
                             if ch.handler == HasToken then rt + 1 else rt, n, handled, StepChild(ch).value.0))
  {
    hide CanReach;
    var b := One(sem, main, [], usr1, rt, n, handled, ch);
    assert [ch][0 := StepChild(ch).value.0] == [StepChild(ch).value.0];
    Onward(Next, s0, b, ChildMoves(0), StepOfChild(b, 0).value);
  }

  lemma ParentPermits(s0: State)
    requires CanReach(Next, s0, One(0, Test, [], Some(0), 0, 0, [], Child(Requested, NoHandler, false, 0, false)))
    ensures CanReach(Next, s0, One(1, Test, [], None, 0, 0, [0], Child(Requested, NoHandler, true, 1, false)))
  {
    hide CanReach;
    var ch, ch' := Child(Requested, NoHandler, false, 0, false), Child(Requested, NoHandler, true, 1, false);
    assert [ch][0 := ch'] == [ch'];
    var f0, f1, f2 := Usr1(0, Record), Usr1(0, Bulk(0)), Usr1(0, Bulk(1));
    assert [f0][0 := f1] == [f1] && [f1][0 := f2] == [f2];
    assert [] + [f0] == [f0] && [0][0 := 0] == [0] && [] + [0] == [0];
    Onward(Next, s0, One(0, Test, [], Some(0), 0, 0, [], ch), TakeUsr1, One(0, Test, [f0], None, 0, 0, [], ch));
    Onward(Next, s0, One(0, Test, [f0], None, 0, 0, [], ch), HandlerMoves, One(0, Test, [f1], None, 0, 0, [0], ch));
    Onward(Next, s0, One(0, Test, [f1], None, 0, 0, [0], ch), HandlerMoves, One(0, Test, [f2], None, 0, 0, [0], ch'));
    PermitEnds(s0, ch');
  }

  lemma PermitEnds(s0: State, ch: Child)
    requires CanReach(Next, s0, One(0, Test, [Usr1(0, Bulk(1))], None, 0, 0, [0], ch))
    ensures CanReach(Next, s0, One(1, Test, [], None, 0, 0, [0], ch))
  {
    hide CanReach;
    var f2, f3 := Usr1(0, Bulk(1)), Usr1(0, Post);
    assert [f2][0 := f3] == [f3] && [f3][..0] == [];
    Onward(Next, s0, One(0, Test, [f2], None, 0, 0, [0], ch), HandlerMoves, One(0, Test, [f3], None, 0, 0, [0], ch));
    Onward(Next, s0, One(0, Test, [f3], None, 0, 0, [0], ch), HandlerMoves, One(1, Test, [], None, 0, 0, [0], ch));
  }

  lemma BothMiss(s0: State)
    requires CanReach(Next, s0, One(1, Test, [], None, 0, 0, [0], Child(Requested, NoHandler, true, 1, false)))
    ensures CanReach(Next, s0, One(1, Pausing, [], None, 0, 1, [0], Child(Paused, NoHandler, false, 1, true)))
  {
    hide CanReach;
    var ch := Child(Requested, NoHandler, true, 1, false);
    var ch0 := Child(Requested, WantsToken, false, 1, false);
    assert [ch][0 := ch0] == [ch0];
    Onward(Next, s0, One(1, Test, [], None, 0, 0, [0], ch), TakeUsr2(0), One(1, Test, [], None, 0, 0, [0], ch0));
    Onward(Next, s0, One(1, Test, [], None, 0, 0, [0], ch0), MainMoves, One(1, Checked, [], None, 0, 0, [0], ch0));
    ChildOnward(s0, 1, Checked, None, 0, 0, [0], ch0);
    ChildOnward(s0, 0, Checked, None, 0, 0, [0], ch0.(handler := HasToken));
    var ch2 := Child(Requested, Reported, false, 1, true);
    Onward(Next, s0, One(0, Checked, [], None, 1, 0, [0], ch2), TakeRt, One(0, Checked, [], None, 0, 1, [0], ch2));
    Onward(Next, s0, One(0, Checked, [], None, 0, 1, [0], ch2), MainMoves, One(0, Pausing, [], None, 0, 1, [0], ch2));
    ChildOnward(s0, 0, Pausing, None, 0, 1, [0], ch2);
    ChildOnward(s0, 1, Pausing, None, 0, 1, [0], ch2.(handler := NoHandler));
  }

  /** With one child and K = 1 the program can hang although all work is done: the child is
      permitted before it pauses, and its report arrives between the parent's test and pause. */
  lemma OneChildCanHang()
    ensures exists schedule, s :: Reaches(1, 1, schedule, s) && Hung(s) && s.parent.n == s.N == 1 && Stuck(s)
  {
    var s0 := Init(1, 1);
    ChildAsks(s0);
    ParentPermits(s0);
    BothMiss(s0);
    var s := One(1, Pausing, [], None, 0, 1, [0], Child(Paused, NoHandler, false, 1, true));
    var schedule :| Exec(Next, s0, schedule) == Some(s);
    StuckIff(1, 1, schedule, s);
    assert Reaches(1, 1, schedule, s);
  }

  function OwnWeight(pc: ChildPc): nat {
    match pc
    case Asleep => 18 case WantsRequest => 17 case Requesting => 16 case Requested => 9 case Paused => 8
    case WantsExit => 7 case Exiting => 6 case Zombie => 0 case Reaped => 0
  }

  function PermitWeight(ch: Child): nat {
    if ch.permits == 0 then 9
    else if ch.usr2 then 8
    else match ch.handler case WantsToken => 7 case HasToken => 6 case Reported => 2 case NoHandler => 1
  }

  function Weight(children: seq<Child>): nat {
    if children == [] then 0
    else
      var last := children[|children| - 1];
      Weight(children[..|children| - 1]) + OwnWeight(last.pc) + PermitWeight(last)
  }

  lemma {:induction false} WeightAt(children: seq<Child>, c: nat, ch: Child)
    requires c < |children|
    ensures Weight(children[c := ch]) == Weight(children) - OwnWeight(children[c].pc) - PermitWeight(children[c])
                                         + OwnWeight(ch.pc) + PermitWeight(ch)
  {
    var n := |children| - 1;
    if c == n {
      assert children[c := ch][..n] == children[..n];
    } else {
      assert children[c := ch][..n] == children[..n][c := ch];
      WeightAt(children[..n], c, ch);
    }
  }

  function MainWeight(main: Main, missing: int): int {
    match main
    case Forking => 4 + 28 * missing
    case Posting => 3 case Test => 2 case Checked => 1 case Pausing => 0 case Over => 0
  }

  function FrameWeight(frames: seq<Frame>): nat {
    if |frames| != 1 then 0
    else
      match frames[0]
      case Usr1(_, phase) => (match phase case Record => 3 case Bulk(_) => 2 case Single => 2 case Post => 1)
      case Chld(_, reaped) => if reaped then 1 else 2
  }

  function Measure(s: State): nat {
    var p := s.parent;
    var m := MainWeight(p.main, s.N - |s.children|) + FrameWeight(p.frames) + (if p.usr1.Some? then 6 else 0)
             + (if p.chld.Some? then 5 else 0) + 3 * p.rt + Weight(s.children);
    if m < 0 then 0 else m
  }

  lemma MainLowers(s: State, h: Holder, a: Action)
    requires InvAt(s, h) && Next(s, a).Some? && (a == MainMoves || a == TakeUsr1 || a == TakeChld || a == TakeRt)
    ensures Measure(Next(s, a).value) < Measure(s)
  {
    assert |s.children| <= s.N;
    hide LocalOk, ChildHolds, RequestsOk, PermitsOk, Worked;
    var t := Next(s, a).value;
    if a == MainMoves && s.parent.main == Forking && |s.children| < s.N {
      assert t.children[..|s.children|] == s.children;
    }
  }

  /** What a child's step gives to the parent, in weight. */
  function Given(ch: Child): nat {
    if ch.handler == HasToken then 3
    else if ch.handler != NoHandler then 0
    else if ch.pc == Requesting then 6
    else if ch.pc == Exiting then 5
    else 0
  }

  lemma ChildWeightLowers(ch: Child)
    requires LocalOk(ch)
    ensures StepChild(ch).Some? ==>
              var d := StepChild(ch).value.0;
              OwnWeight(d.pc) + PermitWeight(d) + Given(ch) < OwnWeight(ch.pc) + PermitWeight(ch)
  {
  }

  function SignalWeight(p: Parent): nat {
    FrameWeight(p.frames) + (if p.usr1.Some? then 6 else 0) + (if p.chld.Some? then 5 else 0) + 3 * p.rt
  }

  lemma SignalledWeight(p: Parent, ch: Child, c: nat)
    ensures SignalWeight(Signalled(p, ch, c)) <= SignalWeight(p) + Given(ch)
    ensures Signalled(p, ch, c).main == p.main
  {
  }

  lemma MeasureIs(s: State)
    ensures var m := MainWeight(s.parent.main, s.N - |s.children|) + SignalWeight(s.parent) + Weight(s.children);
            Measure(s) == if m < 0 then 0 else m
  {
  }

  lemma MainNotNegative(s: State, h: Holder)
    requires InvAt(s, h)
    ensures MainWeight(s.parent.main, s.N - |s.children|) >= 0
  {
  }

  lemma ChildLowers(s: State, h: Holder, c: nat)
    requires InvAt(s, h) && StepOfChild(s, c).Some?
    ensures Measure(StepOfChild(s, c).value) < Measure(s)
  {
    var t := StepOfChild(s, c).value;
    assert LocalOk(s.children[c]);
    MainNotNegative(s, h);
    hide InvAt, LocalOk, Signalled, Given, OwnWeight, PermitWeight, SignalWeight, MainWeight, Measure, Weight, StepChild;
    ChildWeightLowers(s.children[c]);
    SignalledWeight(s.parent, s.children[c], c);
    WeightAt(s.children, c, t.children[c]);
    MeasureIs(s);
    MeasureIs(t);
  }

  lemma Usr2Lowers(s: State, h: Holder, c: nat)
    requires InvAt(s, h) && StepUsr2(s, c).Some?
    ensures Measure(StepUsr2(s, c).value) < Measure(s)
  {
    var t := StepUsr2(s, c).value;
    assert LocalOk(s.children[c]);
    MainNotNegative(s, h);
    hide InvAt, MainWeight, SignalWeight, Measure, Weight;
    WeightAt(s.children, c, t.children[c]);
    MeasureIs(s);
    MeasureIs(t);
  }

  lemma ReapedWeight(s: State, c: nat)
    requires StepReap(s, c).Some? && |s.parent.frames| == 1
    ensures var t := StepReap(s, c).value;
            && SignalWeight(t.parent) < SignalWeight(s.parent) && t.parent.main == s.parent.main
            && |t.children| == |s.children| && t.N == s.N && Weight(t.children) == Weight(s.children)
  {
    var t := StepReap(s, c).value;
    WeightAt(s.children, c, t.children[c]);
  }

  lemma ReapLowers(s: State, h: Holder, c: nat)
    requires InvAt(s, h) && StepReap(s, c).Some?
    ensures Measure(StepReap(s, c).value) < Measure(s)
  {
    var t := StepReap(s, c).value;
    MainNotNegative(s, h);
    assert |s.parent.frames| <= 1;
    hide InvAt;
    ReapedWeight(s, c);
    hide MainWeight, SignalWeight, Measure, Weight, StepReap;
    MeasureIs(s);
    MeasureIs(t);
  }

  lemma HandlerLowers(s: State, h: Holder)
    requires InvAt(s, h) && s.parent.main != Over && StepHandler(s).Some?
    ensures Measure(StepHandler(s).value) < Measure(s)
  {
    hide LocalOk, ChildHolds, Worked, Weight;
    var p := s.parent;
    assert |p.frames| == 1;
    var f := p.frames[0];
    if f.Usr1? && (f.phase.Single? || (f.phase.Bulk? && f.phase.l < p.k)) {
      var i := if f.phase.Bulk? then f.phase.l else p.k - 1;
      var c := p.handled[i];
      assert s.children[c].permits == 0;
      WeightAt(s.children, c, Permit(s.children, c)[c]);
    }
  }

  lemma StepLowersMeasure(s: State, a: Action)
    requires Inv(s) && Next(s, a).Some?
    ensures Measure(Next(s, a).value) < Measure(s)
  {
    var h: Holder :| InvAt(s, h);
    hide InvAt, Measure;
    match a {
      case HandlerMoves => HandlerLowers(s, h);
      case ChildMoves(c) => ChildLowers(s, h, c);
      case Reap(c) => ReapLowers(s, h, c);
      case TakeUsr2(c) => Usr2Lowers(s, h, c);
      case _ => MainLowers(s, h, a);
    }
  }

  /** Every run comes to its end, over or hung, within 28 N + 4 steps. */
  lemma RunLength(N: nat, K: nat, schedule: seq<Action>, s: State)
    requires Reaches(N, K, schedule, s)
    ensures |schedule| <= 28 * N + 4
  {
    InitInv(N, K);
    forall m, a | Inv(m) && Next(m, a).Some?
      ensures Inv(Next(m, a).value) && Measure(Next(m, a).value) < Measure(m)
    {
      StepKeepsInv(m, a);
      StepLowersMeasure(m, a);
    }
    LengthAtMost(Next, Inv, Measure, Init(N, K), schedule);
  }
}
