/** The barrier's guarantees, for every N and K and every run. */
module BarrierProof {
  import opened Runs
  import opened Barrier
  import opened Pigeonhole

  /** Where the token is. */
  datatype Holder = InSemaphore | InSetUp | WithChild(c: nat) | InUsr1(c: nat) | InChld(c: nat)

  predicate HasIt(ch: Child) {
    ch.pc == Requesting || ch.pc == Exiting || ch.handler == HasToken || ch.handler == Reported
  }

  predicate Sent(pc: ChildPc) { pc != Asleep && pc != WantsRequest && pc != Requesting }

  predicate Leaving(pc: ChildPc) { pc == WantsExit || pc == Exiting || pc == Zombie || pc == Reaped }

  /** A child by itself: what it can be doing before and after its permission. */
  predicate LocalOk(ch: Child) {
    && ch.permits <= 1
    && (ch.permits == 0 ==> !ch.usr2 && ch.handler == NoHandler && !ch.worked && !Leaving(ch.pc))
    && (ch.permits == 1 ==> Sent(ch.pc))
    && (ch.permits == 1 && ch.usr2 ==> ch.handler == NoHandler && !ch.worked)
    && (ch.handler == WantsToken || ch.handler == HasToken ==> !ch.worked)
    && (ch.handler == Reported ==> ch.worked)
    && (ch.permits == 1 && !ch.usr2 && ch.handler == NoHandler ==> ch.worked)
    && (Leaving(ch.pc) ==> ch.worked && !ch.usr2 && ch.handler == NoHandler)
  }

  /** The token is in one place: the signals and handlers of the parent. */
  predicate ParentHolds(p: Parent, h: Holder) {
    match h
    case InUsr1(c) =>
      && p.chld.None?
      && ((p.usr1 == Some(c) && p.frames == [])
          || (p.usr1.None? && |p.frames| == 1 && p.frames[0].Usr1? && p.frames[0].c == c))
    case InChld(c) =>
      && p.usr1.None?
      && ((p.chld == Some(c) && p.frames == [])
          || (p.chld.None? && |p.frames| == 1 && p.frames[0].Chld? && p.frames[0].c == c))
    case _ => p.usr1.None? && p.chld.None? && p.frames == []
  }

  predicate ReapedIn(frames: seq<Frame>) { |frames| == 1 && frames[0].Chld? && frames[0].reaped }

  /** The request of the token's carrier has not been recorded yet. */
  predicate Unrecorded(p: Parent, h: Holder) {
    h.InUsr1? && (p.frames == [] || (|p.frames| == 1 && p.frames[0] == Usr1(h.c, Record)))
  }

  predicate ChildHolds(ch: Child, c: nat, h: Holder, p: Parent) {
    && (HasIt(ch) <==> h == WithChild(c))
    && (ch.pc == Zombie <==> h == InChld(c) && !ReapedIn(p.frames))
    && (h == InUsr1(c) ==> Sent(ch.pc) )
    && (c in p.handled <==> Sent(ch.pc) && !(h == InUsr1(c) && Unrecorded(p, h)))
  }

  /** How many of the requests handled have been answered. */
  function Permitted(frames: seq<Frame>, k: nat, K: nat): nat {
    if |frames| == 1 && frames[0].Usr1? && frames[0].phase.Bulk? then frames[0].phase.l
    else if |frames| == 1 && frames[0].Usr1? && frames[0].phase.Single? then if k == 0 then 0 else k - 1
    else if k >= K then k else 0
  }

  /** A handler past its first step works on the request recorded last. */
  predicate FrameOk(frames: seq<Frame>, handled: seq<nat>, K: nat) {
    |frames| == 1 && frames[0].Usr1? && frames[0].phase != Record ==>
      && handled != [] && handled[|handled| - 1] == frames[0].c
      && (frames[0].phase.Bulk? ==> |handled| == K && frames[0].phase.l <= K)
      && (frames[0].phase.Single? ==> |handled| > K)
  }

  predicate RequestsOk(p: Parent, N: nat, K: nat, m: nat) {
    && p.k == |p.handled| && |p.buf| == N && m <= N
    && Distinct(p.handled)
    && (forall i :: 0 <= i < |p.handled| ==> p.handled[i] < m)
    && (forall i :: 0 <= i < |p.handled| && i < K && i < N ==> p.buf[i] == p.handled[i])
    && FrameOk(p.frames, p.handled, K)
    && Permitted(p.frames, p.k, K) <= |p.handled|
  }

  predicate PermitsOk(children: seq<Child>, handled: seq<nat>, permitted: nat) {
    && permitted <= |handled|
    && (forall i :: 0 <= i < |handled| && handled[i] < |children| ==>
          children[handled[i]].permits == if i < permitted then 1 else 0)
    && (forall c :: 0 <= c < |children| && c !in handled ==> children[c].permits == 0)
  }

  function Worked(children: seq<Child>): nat {
    if children == [] then 0
    else Worked(children[..|children| - 1]) + if children[|children| - 1].worked then 1 else 0
  }

  predicate MainOk(main: Main, h: Holder, m: nat, N: nat, n: nat) {
    && (main == Forking || main == Posting <==> h == InSetUp)
    && (main != Forking ==> m == N)
    && (main == Over ==> n == N)
  }

  predicate InvAt(s: State, h: Holder) {
    && s.sem == (if h == InSemaphore then 1 else 0)
    && (h.WithChild? || h.InUsr1? || h.InChld? ==> h.c < |s.children|)
    && MainOk(s.parent.main, h, |s.children|, s.N, s.parent.n)
    && ParentHolds(s.parent, h)
    && RequestsOk(s.parent, s.N, s.K, |s.children|)
    && PermitsOk(s.children, s.parent.handled, Permitted(s.parent.frames, s.parent.k, s.K))
    && s.parent.n + s.parent.rt == Worked(s.children)
    && (forall c :: 0 <= c < |s.children| ==> LocalOk(s.children[c]))
    && (forall c :: 0 <= c < |s.children| ==> ChildHolds(s.children[c], c, h, s.parent))
  }

  ghost predicate Inv(s: State) { exists h: Holder :: InvAt(s, h) }

  lemma {:induction false} WorkedAt(children: seq<Child>, c: nat, ch: Child)
    requires c < |children|
    ensures Worked(children[c := ch]) ==
            Worked(children) - (if children[c].worked then 1 else 0) + if ch.worked then 1 else 0
  {
    var n := |children| - 1;
    if c == n {
      assert children[c := ch][..n] == children[..n];
    } else {
      assert children[c := ch][..n] == children[..n][c := ch];
      WorkedAt(children[..n], c, ch);
    }
  }

  lemma InitInv(N: nat, K: nat)
    ensures Inv(Init(N, K))
  {
    assert InvAt(Init(N, K), InSetUp);
  }

  lemma PermitsKept(children: seq<Child>, c: nat, ch: Child, handled: seq<nat>, permitted: nat)
    requires PermitsOk(children, handled, permitted) && c < |children| && ch.permits == children[c].permits
    ensures PermitsOk(children[c := ch], handled, permitted)
  {
  }

  lemma RequestsKept(p: Parent, q: Parent, N: nat, K: nat, m: nat)
    requires RequestsOk(p, N, K, m) && q.k == p.k && q.buf == p.buf && q.handled == p.handled && q.frames == p.frames
    ensures RequestsOk(q, N, K, m)
  {
  }

  lemma OneMoreChild(children: seq<Child>, ch: Child, handled: seq<nat>, permitted: nat)
    requires PermitsOk(children, handled, permitted) && ch.permits == 0
    requires forall i :: 0 <= i < |handled| ==> handled[i] < |children|
    ensures PermitsOk(children + [ch], handled, permitted)
  {
    var more := children + [ch];
    assert forall i :: 0 <= i < |handled| ==> more[handled[i]] == children[handled[i]];
    forall c | 0 <= c < |more| && c !in handled ensures more[c].permits == 0 {
      if c < |children| { assert more[c] == children[c]; }
    }
  }

  lemma OneMoreIdle(children: seq<Child>, ch: Child)
    requires !ch.worked
    ensures Worked(children + [ch]) == Worked(children)
  {
    assert (children + [ch])[..|children|] == children;
  }

  lemma ForkStep(s: State)
    requires InvAt(s, InSetUp) && StepMain(s).Some? && s.parent.main == Forking && |s.children| < s.N
    ensures InvAt(StepMain(s).value, InSetUp)
  {
    var t := StepMain(s).value;
    var ch := Child(Asleep, NoHandler, false, 0, false);
    OneMoreChild(s.children, ch, s.parent.handled, Permitted(s.parent.frames, s.parent.k, s.K));
    OneMoreIdle(s.children, ch);
    hide PermitsOk, Worked;
    forall c | 0 <= c < |t.children| ensures LocalOk(t.children[c]) && ChildHolds(t.children[c], c, InSetUp, t.parent) {
      if c < |s.children| {
        assert LocalOk(s.children[c]) && ChildHolds(s.children[c], c, InSetUp, s.parent);
      } else {
        assert |s.children| !in s.parent.handled;
      }
    }
  }

  /** A step of the parent that changes neither its requests nor its signals. */
  lemma ControlStep(s: State, h: Holder, t: State, g: Holder)
    requires InvAt(s, h) && !h.WithChild? && !h.InUsr1? && !h.InChld? && !g.WithChild? && !g.InUsr1? && !g.InChld?
    requires t == s.(sem := t.sem, parent := s.parent.(main := t.parent.main))
    requires t.sem == (if g == InSemaphore then 1 else 0) && MainOk(t.parent.main, g, |s.children|, s.N, s.parent.n)
    ensures InvAt(t, g)
  {
    hide LocalOk, Worked, PermitsOk, RequestsOk, MainOk;
    RequestsKept(s.parent, t.parent, s.N, s.K, |s.children|);
    forall c | 0 <= c < |t.children| ensures ChildHolds(t.children[c], c, g, t.parent) {
      assert ChildHolds(s.children[c], c, h, s.parent);
    }
  }

  /** Another program point of the parent, wherever the token is. */
  lemma ElsewhereStep(s: State, h: Holder, main: Main)
    requires InvAt(s, h) && MainOk(main, h, |s.children|, s.N, s.parent.n)
    ensures InvAt(s.(parent := s.parent.(main := main)), h)
  {
    hide LocalOk, Worked, PermitsOk, RequestsOk, MainOk;
    var p := s.parent.(main := main);
    RequestsKept(s.parent, p, s.N, s.K, |s.children|);
    forall c | 0 <= c < |s.children| ensures ChildHolds(s.children[c], c, h, p) {
      assert ChildHolds(s.children[c], c, h, s.parent);
    }
    hide ChildHolds;
  }

  lemma MainStep(s: State, h: Holder)
    requires InvAt(s, h) && StepMain(s).Some? && s.parent.main != Over
    ensures InvAt(StepMain(s).value, if s.parent.main == Posting then InSemaphore else h)
  {
    hide LocalOk, Worked, PermitsOk, ChildHolds, ParentHolds;
    assert |s.children| <= s.N;
    hide RequestsOk;
    var t := StepMain(s).value;
    if s.parent.main == Forking && |s.children| < s.N {
      ForkStep(s);
    } else if s.parent.main == Posting {
      ControlStep(s, h, t, InSemaphore);
    } else {
      ElsewhereStep(s, h, t.parent.main);
    }
  }

  /** Delivery of a signal to the parent. */
  lemma DeliveryStep(s: State, h: Holder, a: Action)
    requires InvAt(s, h) && (a == TakeUsr1 || a == TakeChld || a == TakeRt) && Next(s, a).Some?
    ensures InvAt(Next(s, a).value, h)
  {
    hide LocalOk, Worked, PermitsOk, ChildHolds;
    DeliveredChildren(s, h, a);
    DeliveredParent(s, h, a);
    hide RequestsOk, ParentHolds, Permitted;
  }

  lemma DeliveredParent(s: State, h: Holder, a: Action)
    requires InvAt(s, h) && (a == TakeUsr1 || a == TakeChld || a == TakeRt) && Next(s, a).Some?
    ensures var p, q := s.parent, Next(s, a).value.parent;
            && ParentHolds(q, h) && RequestsOk(q, s.N, s.K, |s.children|)
            && Permitted(q.frames, q.k, s.K) == Permitted(p.frames, p.k, s.K)
            && q.n + q.rt == p.n + p.rt && q.handled == p.handled
  {
    hide LocalOk, Worked, PermitsOk, ChildHolds, MainOk;
  }

  lemma DeliveredChildren(s: State, h: Holder, a: Action)
    requires InvAt(s, h) && (a == TakeUsr1 || a == TakeChld || a == TakeRt) && Next(s, a).Some?
    ensures forall c :: 0 <= c < |s.children| ==> ChildHolds(s.children[c], c, h, Next(s, a).value.parent)
  {
    hide LocalOk, Worked, PermitsOk, RequestsOk, MainOk;
    var t := Next(s, a).value;
    forall c | 0 <= c < |s.children| ensures ChildHolds(s.children[c], c, h, t.parent) {
      assert ChildHolds(s.children[c], c, h, s.parent);
    }
  }

  /** Where the token is after a step of child c. */
  function HolderAfter(ch: Child, c: nat, h: Holder): Holder {
    match ch.handler
    case WantsToken => WithChild(c)
    case HasToken => h
    case Reported => InSemaphore
    case NoHandler =>
      if ch.pc == WantsRequest || ch.pc == WantsExit then WithChild(c)
      else if ch.pc == Requesting then InUsr1(c)
      else if ch.pc == Exiting then InChld(c)
      else h
  }

  /** The moving child's own part. */
  lemma MoverStep(s: State, h: Holder, c: nat)
    requires InvAt(s, h) && StepOfChild(s, c).Some?
    ensures var t := StepOfChild(s, c).value;
            var g := HolderAfter(s.children[c], c, h);
            && LocalOk(t.children[c]) && ChildHolds(t.children[c], c, g, t.parent)
            && t.children[c].permits == s.children[c].permits
            && t.sem == (if g == InSemaphore then 1 else 0)
            && ParentHolds(t.parent, g)
            && (g == InSetUp <==> h == InSetUp)
            && (t.children[c].worked ==> s.children[c].worked || t.parent.rt == s.parent.rt + 1)
            && (g != h ==> (h == InSemaphore && g == WithChild(c)) || (h == WithChild(c) && !g.WithChild?))
  {
    hide RequestsOk, PermitsOk, MainOk, Worked;
    assert LocalOk(s.children[c]) && ChildHolds(s.children[c], c, h, s.parent);
  }

  lemma ChildStep(s: State, h: Holder, c: nat)
    requires InvAt(s, h) && StepOfChild(s, c).Some? && s.parent.main != Over
    ensures InvAt(StepOfChild(s, c).value, HolderAfter(s.children[c], c, h))
  {
    hide LocalOk, ChildHolds, Worked, PermitsOk, RequestsOk, StepChild, ParentHolds, Signalled, Permitted, HolderAfter;
    var t := StepOfChild(s, c).value;
    MoverStep(s, h, c);
    WorkedStep(s, h, c);
    OthersUntouched(s, h, c);
    SignalsOnly(s, c);
    PermitsKept(s.children, c, t.children[c], s.parent.handled, Permitted(s.parent.frames, s.parent.k, s.K));
    RequestsKept(s.parent, t.parent, s.N, s.K, |s.children|);
    assert t.children == s.children[c := t.children[c]];
    HolderIsChild(s, h, c);
  }

  lemma HolderIsChild(s: State, h: Holder, c: nat)
    requires InvAt(s, h) && StepOfChild(s, c).Some?
    ensures var g := HolderAfter(s.children[c], c, h);
            (g.WithChild? || g.InUsr1? || g.InChld? ==> g.c < |s.children|)
  {
    hide LocalOk, ChildHolds, Worked, PermitsOk, RequestsOk;
  }

  lemma SignalsOnly(s: State, c: nat)
    requires StepOfChild(s, c).Some?
    ensures StepOfChild(s, c).value.parent.(usr1 := s.parent.usr1, chld := s.parent.chld, rt := s.parent.rt) == s.parent
  {
  }

  lemma WorkedStep(s: State, h: Holder, c: nat)
    requires InvAt(s, h) && StepOfChild(s, c).Some?
    ensures var t := StepOfChild(s, c).value; t.parent.n + t.parent.rt == Worked(t.children)
  {
    hide ChildHolds, RequestsOk, PermitsOk, ParentHolds, MainOk;
    assert LocalOk(s.children[c]);
    WorkedAt(s.children, c, StepOfChild(s, c).value.children[c]);
  }

  /** To the other children it makes no difference which of them has the token. */
  lemma OthersUntouched(s: State, h: Holder, c: nat)
    requires InvAt(s, h) && StepOfChild(s, c).Some?
    ensures var t := StepOfChild(s, c).value;
            forall d :: 0 <= d < |s.children| && d != c ==>
              t.children[d] == s.children[d] && ChildHolds(s.children[d], d, HolderAfter(s.children[c], c, h), t.parent)
  {
    hide RequestsOk, PermitsOk, MainOk, Worked, LocalOk;
    var g := HolderAfter(s.children[c], c, h);
    var t := StepOfChild(s, c).value;
    MoverStep(s, h, c);
    forall d | 0 <= d < |s.children| && d != c ensures ChildHolds(s.children[d], d, g, t.parent) {
      assert ChildHolds(s.children[d], d, h, s.parent);
    }
  }

  lemma Usr2Step(s: State, h: Holder, c: nat)
    requires InvAt(s, h) && StepUsr2(s, c).Some?
    ensures InvAt(StepUsr2(s, c).value, h)
  {
    OwnStep(s, h, c, s.children[c].(usr2 := false, handler := WantsToken));
  }

  /** A step that changes one child and not who has the token. */
  lemma OwnStep(s: State, h: Holder, c: nat, ch: Child)
    requires InvAt(s, h) && c < |s.children|
    requires ch.permits == s.children[c].permits && ch.worked == s.children[c].worked
    requires LocalOk(ch) && ChildHolds(ch, c, h, s.parent)
    ensures InvAt(s.(children := s.children[c := ch]), h)
  {
    WorkedAt(s.children, c, ch);
    PermitsKept(s.children, c, ch, s.parent.handled, Permitted(s.parent.frames, s.parent.k, s.K));
    hide LocalOk, ChildHolds, Worked, PermitsOk, RequestsOk, ParentHolds;
  }

  /** wait() returns the child whose SIGCHLD is being handled. */
  lemma ReapStep(s: State, h: Holder, c: nat)
    requires InvAt(s, h) && StepReap(s, c).Some?
    ensures h == InChld(c) && InvAt(StepReap(s, c).value, h)
  {
    ReapsSender(s, h, c);
    ReapedParent(s, h, c);
    hide LocalOk, ChildHolds, Worked, PermitsOk, RequestsOk, ParentHolds, Permitted;
    var t := StepReap(s, c).value;
    WorkedAt(s.children, c, t.children[c]);
    PermitsKept(s.children, c, t.children[c], s.parent.handled, Permitted(s.parent.frames, s.parent.k, s.K));
    ReapedChildren(s, h, c);
  }

  lemma ReapedParent(s: State, h: Holder, c: nat)
    requires InvAt(s, h) && StepReap(s, c).Some? && h == InChld(c)
    ensures var p, q := s.parent, StepReap(s, c).value.parent;
            && ParentHolds(q, h) && RequestsOk(q, s.N, s.K, |s.children|)
            && Permitted(q.frames, q.k, s.K) == Permitted(p.frames, p.k, s.K)
  {
    hide LocalOk, Worked, PermitsOk, ChildHolds, MainOk;
  }

  lemma ReapsSender(s: State, h: Holder, c: nat)
    requires InvAt(s, h) && StepReap(s, c).Some?
    ensures h == InChld(c)
  {
    hide LocalOk, Worked, PermitsOk, RequestsOk, MainOk;
    assert ChildHolds(s.children[c], c, h, s.parent);
  }

  lemma ReapedChildren(s: State, h: Holder, c: nat)
    requires InvAt(s, h) && StepReap(s, c).Some?
    ensures var t := StepReap(s, c).value;
            forall d :: 0 <= d < |s.children| ==> LocalOk(t.children[d]) && ChildHolds(t.children[d], d, h, t.parent)
  {
    hide Worked, PermitsOk, RequestsOk, MainOk;
    var t := StepReap(s, c).value;
    assert LocalOk(s.children[c]) && ChildHolds(s.children[c], c, h, s.parent);
    forall d | 0 <= d < |s.children| ensures LocalOk(t.children[d]) && ChildHolds(t.children[d], d, h, t.parent) {
      assert LocalOk(s.children[d]) && ChildHolds(s.children[d], d, h, s.parent);
    }
  }

  /** One more SIGUSR2, to the next of the requesters. */
  lemma PermitStep(children: seq<Child>, handled: seq<nat>, permitted: nat)
    requires PermitsOk(children, handled, permitted) && permitted < |handled| && handled[permitted] < |children|
    requires Distinct(handled)
    ensures PermitsOk(Permit(children, handled[permitted]), handled, permitted + 1)
  {
  }

  lemma PermittedChildOk(s: State, h: Holder, c: nat)
    requires InvAt(s, h) && c < |s.children| && s.children[c].permits == 0 && c in s.parent.handled
    ensures var t := Permit(s.children, c);
            && LocalOk(t[c]) && t[c].pc == s.children[c].pc && t[c].handler == s.children[c].handler
            && Worked(t) == Worked(s.children)
  {
    assert LocalOk(s.children[c]) && ChildHolds(s.children[c], c, h, s.parent);
    WorkedAt(s.children, c, Permit(s.children, c)[c]);
  }

  /** The handler's kill, bulk or single: h keeps the token. */
  lemma KillStep(s: State, h: Holder, i: nat, f: Frame)
    requires InvAt(s, h) && h.InUsr1? && s.parent.frames != [] && s.parent.frames[0].phase != Record
    requires i == Permitted(s.parent.frames, s.parent.k, s.K) < |s.parent.handled|
    requires f.Usr1? && f.c == h.c && f.phase != Record
    requires FrameOk([f], s.parent.handled, s.K) && Permitted([f], s.parent.k, s.K) == i + 1
    ensures InvAt(s.(children := Permit(s.children, s.parent.handled[i]), parent := s.parent.(frames := [f])), h)
  {
    hide LocalOk, Worked;
    var c := s.parent.handled[i];
    var t := s.(children := Permit(s.children, c), parent := s.parent.(frames := [f]));
    PermitStep(s.children, s.parent.handled, i);
    PermittedChildOk(s, h, c);
    forall d | 0 <= d < |t.children| ensures LocalOk(t.children[d]) && ChildHolds(t.children[d], d, h, t.parent) {
      assert LocalOk(s.children[d]) && ChildHolds(s.children[d], d, h, s.parent);
    }
  }

  lemma RecordStep(s: State, h: Holder)
    requires InvAt(s, h) && StepHandler(s).Some? && s.parent.frames != []
    requires s.parent.frames[|s.parent.frames| - 1].Usr1? && s.parent.frames[|s.parent.frames| - 1].phase == Record
    ensures InvAt(StepHandler(s).value, h)
  {
    var p, t := s.parent, StepHandler(s).value;
    RecordedParent(s, h);
    RecordedChildren(s, h);
    hide LocalOk, Worked, PermitsOk, RequestsOk, ChildHolds, ParentHolds, Permitted;
    RecordedPermits(s.children, p.handled, h.c, Permitted(p.frames, p.k, s.K));
  }

  lemma RecordedParent(s: State, h: Holder)
    requires InvAt(s, h) && StepHandler(s).Some? && s.parent.frames != []
    requires s.parent.frames[|s.parent.frames| - 1].Usr1? && s.parent.frames[|s.parent.frames| - 1].phase == Record
    ensures var p, t := s.parent, StepHandler(s).value.parent;
            && h.InUsr1? && h.c !in p.handled && t.handled == p.handled + [h.c]
            && ParentHolds(t, h) && RequestsOk(t, s.N, s.K, |s.children|)
            && Permitted(t.frames, t.k, s.K) == Permitted(p.frames, p.k, s.K)
  {
    hide LocalOk, Worked, PermitsOk, MainOk;
    assert ChildHolds(s.children[h.c], h.c, h, s.parent);
    hide ChildHolds;
  }

  lemma RecordedChildren(s: State, h: Holder)
    requires InvAt(s, h) && StepHandler(s).Some? && s.parent.frames != []
    requires s.parent.frames[|s.parent.frames| - 1].Usr1? && s.parent.frames[|s.parent.frames| - 1].phase == Record
    ensures forall d :: 0 <= d < |s.children| ==> ChildHolds(s.children[d], d, h, StepHandler(s).value.parent)
  {
    hide LocalOk, Worked, PermitsOk, MainOk, RequestsOk;
    var t := StepHandler(s).value;
    forall d | 0 <= d < |s.children| ensures ChildHolds(s.children[d], d, h, t.parent) {
      assert ChildHolds(s.children[d], d, h, s.parent);
    }
  }

  lemma RecordedPermits(children: seq<Child>, handled: seq<nat>, c: nat, permitted: nat)
    requires PermitsOk(children, handled, permitted) && c < |children| && c !in handled
    ensures PermitsOk(children, handled + [c], permitted)
  {
  }

  lemma PostStep(s: State, h: Holder)
    requires InvAt(s, h) && StepHandler(s).Some? && s.parent.frames != []
    requires var f := s.parent.frames[|s.parent.frames| - 1]; if f.Usr1? then f.phase == Post else f.reaped
    ensures InvAt(StepHandler(s).value, InSemaphore)
  {
    hide LocalOk, Worked, PermitsOk;
    var t := StepHandler(s).value;
    forall d | 0 <= d < |t.children| ensures ChildHolds(t.children[d], d, InSemaphore, t.parent) {
      assert ChildHolds(s.children[d], d, h, s.parent);
    }
  }

  lemma BulkEnds(s: State, h: Holder)
    requires InvAt(s, h) && h.InUsr1? && |s.parent.frames| == 1
    requires s.parent.frames[0] == Usr1(h.c, Bulk(s.parent.k))
    ensures InvAt(s.(parent := s.parent.(frames := [Usr1(h.c, Post)])), h)
  {
    hide LocalOk, Worked, PermitsOk;
    var t := s.(parent := s.parent.(frames := [Usr1(h.c, Post)]));
    forall d | 0 <= d < |t.children| ensures ChildHolds(t.children[d], d, h, t.parent) {
      assert ChildHolds(s.children[d], d, h, s.parent);
    }
  }

  lemma HandlerStep(s: State, h: Holder)
    requires InvAt(s, h) && StepHandler(s).Some?
    ensures InvAt(StepHandler(s).value, if |StepHandler(s).value.parent.frames| == 0 then InSemaphore else h)
  {
    hide LocalOk, ChildHolds, Worked, PermitsOk, MainOk;
    var p, t := s.parent, StepHandler(s).value;
    var f := p.frames[0];
    assert |p.frames| == 1;
    if f.Chld? || f.phase == Post {
      PostStep(s, h);
    } else if f.phase == Record {
      RecordStep(s, h);
    } else if f.phase == Single {
      KillStep(s, h, p.k - 1, Usr1(f.c, Post));
      assert p.frames[0 := Usr1(f.c, Post)] == [Usr1(f.c, Post)];
    } else if f.phase.l < p.k {
      var l := f.phase.l;
      KillStep(s, h, l, Usr1(f.c, Bulk(l + 1)));
      assert p.frames[0 := Usr1(f.c, Bulk(l + 1))] == [Usr1(f.c, Bulk(l + 1))];
    } else {
      BulkEnds(s, h);
      assert p.frames[0 := Usr1(f.c, Post)] == [Usr1(f.c, Post)];
    }
  }
}
