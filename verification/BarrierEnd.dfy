/** How the barrier's runs end.  That the parent always leaves its loop is false; here is the
    exact condition, read off any state in which all children have been counted. */
module BarrierEnd {
  import opened Runs
  import opened Barrier
  import opened BarrierProof
  import opened BarrierTheorems

  /** The parent has set up and counted a report of every child. */
  predicate AllCounted(s: State) {
    s.parent.n == s.N == |s.children| && s.parent.main != Forking && s.parent.main != Posting
  }

  /** The child will still exit, and its SIGCHLD wake the parent: it had paused before its
      permission came. */
  predicate OnItsWay(ch: Child) {
    (ch.handler == Reported && ch.pc == Paused) || ch.pc == WantsExit || ch.pc == Exiting
  }

  predicate WakeComing(s: State) {
    s.parent.chld.Some? || exists c :: 0 <= c < |s.children| && OnItsWay(s.children[c])
  }

  /** A child with nothing left to ask, to be permitted or to report. */
  predicate HasWorked(ch: Child) {
    && ch.worked && !ch.usr2 && ch.permits == 1 && Sent(ch.pc)
    && (ch.handler == NoHandler || (ch.handler == Reported && (ch.pc == Requested || ch.pc == Paused)))
  }

  /** A handler with no SIGUSR2 left to send. */
  predicate SendsNoMore(f: Frame, k: nat) {
    f.Chld? || f.phase == Post || (f.phase.Bulk? && f.phase.l >= k)
  }

  lemma CountedChildren(s: State, h: Holder)
    requires InvAt(s, h) && AllCounted(s)
    ensures s.parent.rt == 0 && forall c :: 0 <= c < |s.children| ==> HasWorked(s.children[c])
  {
    WorkedAll(s.children);
    hide Worked, RequestsOk, PermitsOk, ParentHolds, ChildHolds;
    forall c | 0 <= c < |s.children| ensures HasWorked(s.children[c]) {
      assert LocalOk(s.children[c]);
    }
  }

  lemma CountedRequests(s: State, h: Holder)
    requires InvAt(s, h) && AllCounted(s)
    ensures s.parent.usr1.None? && |s.parent.frames| <= 1
    ensures s.parent.frames != [] ==> SendsNoMore(s.parent.frames[0], s.parent.k)
  {
    CountedChildren(s, h);
    hide Worked, LocalOk;
    if h.InUsr1? {
      var c := h.c;
      assert ChildHolds(s.children[c], c, h, s.parent) && HasWorked(s.children[c]);
      assert c in s.parent.handled;
      assert forall i :: 0 <= i < |s.parent.handled| ==> HasWorked(s.children[s.parent.handled[i]]);
    }
  }

  /** The step of a child that has worked leads it on, to its exit or into a pause for good. */
  lemma WorkedChildSteps(p: Parent, ch: Child, c: nat)
    requires HasWorked(ch) && StepChild(ch).Some?
    ensures var d, q := StepChild(ch).value.0, Signalled(p, ch, c);
            && q == p.(chld := q.chld)
            && (q.chld.Some? || OnItsWay(d) <==> p.chld.Some? || OnItsWay(ch))
            && (p.chld.Some? ==> q.chld.Some?)
            && (q.chld.Some? ==> p.chld.Some? || OnItsWay(ch))
  {
  }

  /** What a step can do once all are counted. */
  ghost predicate Onwards(s: State, t: State) {
    && AllCounted(t)
    && (t.parent.main == s.parent.main
        || (s.parent.main == Test && t.parent.main == Over)
        || (s.parent.main == Checked && t.parent.main == Pausing)
        || (s.parent.main == Pausing && t.parent.main == Test))
    && (WakeComing(t) ==> WakeComing(s))
    && (s.parent.main == Pausing && t.parent.main == Test ==> WakeComing(s))
    && (s.parent.main == Pausing && WakeComing(s) ==> WakeComing(t) || t.parent.main == Test)
    && (s.parent.main == Checked && t.parent.main == Pausing ==> (WakeComing(t) <==> WakeComing(s)))
  }

  lemma ChildOnwards(s: State, h: Holder, c: nat)
    requires InvAt(s, h) && AllCounted(s) && StepOfChild(s, c).Some?
    ensures Onwards(s, StepOfChild(s, c).value)
  {
    CountedChildren(s, h);
    hide InvAt, StepChild, Signalled, HasWorked, OnItsWay;
    var t := StepOfChild(s, c).value;
    WorkedChildSteps(s.parent, s.children[c], c);
    assert forall d :: 0 <= d < |s.children| && d != c ==> t.children[d] == s.children[d];
    if d :| 0 <= d < |s.children| && OnItsWay(s.children[d]) && t.parent.chld.None? {
      assert OnItsWay(t.children[d]);
    }
  }

  lemma HandlerOnwards(s: State, h: Holder)
    requires InvAt(s, h) && AllCounted(s) && StepHandler(s).Some?
    ensures Onwards(s, StepHandler(s).value)
  {
    CountedRequests(s, h);
    hide InvAt, OnItsWay;
    assert |s.parent.frames| == 1;
    assert StepHandler(s).value.children == s.children;
  }

  lemma ReapOnwards(s: State, c: nat)
    requires AllCounted(s) && StepReap(s, c).Some?
    ensures Onwards(s, StepReap(s, c).value)
  {
    var t := StepReap(s, c).value;
    assert t.parent == s.parent.(frames := t.parent.frames);
    assert forall d :: 0 <= d < |s.children| ==>
             t.children[d] == s.children[d] || (s.children[d].pc == Zombie && t.children[d] == s.children[d].(pc := Reaped));
    hide StepReap;
    forall d | 0 <= d < |s.children| ensures OnItsWay(t.children[d]) == OnItsWay(s.children[d]) {
    }
    hide OnItsWay;
  }

  lemma MainOnwards(s: State, h: Holder, a: Action)
    requires InvAt(s, h) && AllCounted(s) && Next(s, a).Some? && (a == MainMoves || a == TakeUsr1 || a == TakeChld || a == TakeRt)
    ensures Onwards(s, Next(s, a).value)
  {
    CountedChildren(s, h);
    CountedRequests(s, h);
    hide InvAt, OnItsWay;
  }

  lemma StepOnwards(s: State, a: Action)
    requires Inv(s) && AllCounted(s) && Next(s, a).Some?
    ensures Inv(Next(s, a).value) && Onwards(s, Next(s, a).value)
  {
    StepKeepsInv(s, a);
    var h: Holder :| InvAt(s, h);
    hide InvAt, Onwards;
    match a {
      case ChildMoves(c) => ChildOnwards(s, h, c);
      case HandlerMoves => HandlerOnwards(s, h);
      case Reap(c) => ReapOnwards(s, c);
      case TakeUsr2(_) => CountedChildren(s, h);
      case _ => MainOnwards(s, h, a);
    }
  }

  /** The parent is before its last test, or will be woken to make it. */
  predicate Ending(s: State) { s.parent.main == Test || s.parent.main == Over || WakeComing(s) }

  /** Outside the gap between its test and its pause, the parent's end is decided. */
  lemma {:induction false} EndingIsKept(s: State, rest: seq<Action>, t: State)
    requires Inv(s) && AllCounted(s) && Exec(Next, s, rest) == Some(t)
    ensures Inv(t) && AllCounted(t)
    ensures s.parent.main != Checked ==> t.parent.main != Checked && (Ending(t) <==> Ending(s))
    ensures !Ending(s) ==> !Ending(t)
    decreases |rest|
  {
    hide Inv, Next, WakeComing;
    if rest != [] {
      var n := |rest| - 1;
      var m := Exec(Next, s, rest[..n]).value;
      EndingIsKept(s, rest[..n], m);
      StepOnwards(m, rest[n]);
    }
  }

  lemma StuckEnds(t: State)
    requires t.parent.main == Over || Hung(t)
    ensures t.parent.main == Over <==> Ending(t)
    ensures Hung(t) ==> !Ending(t)
  {
  }

  /** The exact condition.  Cut any run that has stopped at any state in which all children have
      been counted and the parent is not between its test and its pause: the program is over if
      the parent was not pausing there or a child was on its way to wake it, and hangs otherwise. */
  lemma OverIff(N: nat, K: nat, first: seq<Action>, s: State, rest: seq<Action>, t: State)
    requires Reaches(N, K, first, s) && AllCounted(s) && s.parent.main != Checked
    requires Exec(Next, s, rest) == Some(t) && Stuck(t)
    ensures t.parent.main == Over <==> s.parent.main != Pausing || WakeComing(s)
  {
    EveryRunKeepsInv(N, K, first, s);
    EndingIsKept(s, rest, t);
    ExecConcat(Next, Init(N, K), first, rest);
    hide Inv, Next, WakeComing, Stuck, Hung;
    StuckIff(N, K, first + rest, t);
    StuckEnds(t);
  }

  /** Between test and pause it is a race: with nobody on its way the program hangs; with
      somebody, a parent that pauses at once is still woken, as OverIff says of the state it
      pauses in, while one that pauses late may find that the signal has come already. */
  lemma CheckedIsARace(N: nat, K: nat, first: seq<Action>, s: State, rest: seq<Action>, t: State)
    requires Reaches(N, K, first, s) && AllCounted(s) && s.parent.main == Checked
    requires Exec(Next, s, rest) == Some(t) && Stuck(t)
    ensures !WakeComing(s) ==> Hung(t)
    ensures WakeComing(s) && rest != [] && rest[0] == MainMoves ==> t.parent.main == Over
  {
    EveryRunKeepsInv(N, K, first, s);
    EndingIsKept(s, rest, t);
    ExecConcat(Next, Init(N, K), first, rest);
    StuckIff(N, K, first + rest, t);
    StuckEnds(t);
    if WakeComing(s) && rest != [] && rest[0] == MainMoves {
      PausesAtOnce(s, rest, t);
    }
  }

  lemma PausesAtOnce(s: State, rest: seq<Action>, t: State)
    requires Inv(s) && AllCounted(s) && s.parent.main == Checked && WakeComing(s)
    requires Exec(Next, s, rest) == Some(t) && rest != [] && rest[0] == MainMoves
    ensures t.parent.main != Checked && Ending(t)
  {
    assert rest == rest[..1] + rest[1..];
    ExecConcat(Next, s, rest[..1], rest[1..]);
    ExecOne(s, MainMoves);
    assert rest[..1] == [MainMoves];
    var m := Next(s, MainMoves).value;
    StepOnwards(s, MainMoves);
    EndingIsKept(m, rest[1..], t);
  }

  lemma ExecOne(s: State, a: Action)
    ensures Exec(Next, s, [a]) == Next(s, a)
  {
    assert [a][..0] == [];
  }

  /** With K <= N such a cut is always there: the end of every run is one. */
  lemma StuckIsCounted(N: nat, K: nat, schedule: seq<Action>, t: State)
    requires K <= N && Reaches(N, K, schedule, t) && Stuck(t)
    ensures AllCounted(t) && t.parent.main != Checked
  {
    StuckIff(N, K, schedule, t);
    if t.parent.main == Over {
      WorkFollowsPermission(N, K, schedule, t);
      OverCounts(N, K, schedule, t);
    } else {
      WhatHungMeans(N, K, schedule, t);
    }
    EveryRunKeepsInv(N, K, schedule, t);
  }

  lemma OverCounts(N: nat, K: nat, schedule: seq<Action>, t: State)
    requires Reaches(N, K, schedule, t) && t.parent.main == Over
    ensures t.parent.n == N
  {
    EveryRunKeepsInv(N, K, schedule, t);
    hide RequestsOk, PermitsOk, ParentHolds, Worked;
    var h: Holder :| InvAt(t, h);
  }

  /** With K > N >= 1 no run gets over. */
  lemma TooFewNeverEnd(N: nat, K: nat, schedule: seq<Action>, t: State)
    requires K > N >= 1 && Reaches(N, K, schedule, t)
    ensures t.parent.main != Over && (Stuck(t) ==> Hung(t))
  {
    WorkFollowsPermission(N, K, schedule, t);
    StuckIff(N, K, schedule, t);
  }

  /** Any signal delivered to a pausing parent ends its pause; otherwise deliveries leave it where
      it is. */
  lemma SignalsWake(s: State, a: Action)
    requires (a == TakeUsr1 || a == TakeChld || a == TakeRt) && Next(s, a).Some?
    ensures Next(s, a).value.parent.main == if s.parent.main == Pausing then Test else s.parent.main
    ensures Next(s, a).value.parent.n == s.parent.n + if a == TakeRt then 1 else 0
  {
  }

  /** If the last report finds the parent pausing, the program gets over, however it goes on. */
  lemma LastReportInTime(N: nat, K: nat, first: seq<Action>, s: State, s': State, rest: seq<Action>, t: State)
    requires Reaches(N, K, first, s) && s.parent.main == Pausing && Next(s, TakeRt) == Some(s') && AllCounted(s')
    requires Exec(Next, s', rest) == Some(t) && Stuck(t)
    ensures t.parent.main == Over
  {
    SignalsWake(s, TakeRt);
    ExecConcat(Next, Init(N, K), first, [TakeRt]);
    ExecOne(s, TakeRt);
    hide Next, Stuck;
    OverIff(N, K, first + [TakeRt], s', rest, t);
  }

  /** Who waits for what: a child only for the token while the semaphore is 0, for its permission,
      or to be reaped; the parent's main code only for its handlers and in pause; and a signal is
      never kept from the parent. */
  lemma BlockedIff(N: nat, K: nat, schedule: seq<Action>, s: State)
    requires Reaches(N, K, schedule, s) && s.parent.main != Over
    ensures forall c :: 0 <= c < |s.children| ==>
              var ch := s.children[c];
              (Next(s, ChildMoves(c)).None? <==>
                 || (ch.handler == WantsToken && s.sem == 0)
                 || (ch.handler == NoHandler && (ch.pc == WantsRequest || ch.pc == WantsExit) && s.sem == 0)
                 || (ch.handler == NoHandler && (ch.pc == Paused || ch.pc == Zombie || ch.pc == Reaped)))
              && (Next(s, TakeUsr2(c)).Some? <==> ch.usr2)
    ensures Next(s, MainMoves).None? <==> s.parent.frames != [] || s.parent.main == Pausing
    ensures Next(s, TakeUsr1).Some? <==> s.parent.usr1.Some?
    ensures Next(s, TakeChld).Some? <==> s.parent.chld.Some?
    ensures Next(s, TakeRt).Some? <==> s.parent.rt > 0
  {
    EveryRunKeepsInv(N, K, schedule, s);
    var h: Holder :| InvAt(s, h);
    hide RequestsOk, PermitsOk, Worked, ChildHolds, MainOk, StepChild, StepOfChild, StepUsr2;
    forall c | 0 <= c < |s.children|
      ensures var ch := s.children[c];
              (StepOfChild(s, c).None? <==>
                 || (ch.handler == WantsToken && s.sem == 0)
                 || (ch.handler == NoHandler && (ch.pc == WantsRequest || ch.pc == WantsExit) && s.sem == 0)
                 || (ch.handler == NoHandler && (ch.pc == Paused || ch.pc == Zombie || ch.pc == Reaped)))
              && (StepUsr2(s, c).Some? <==> ch.usr2)
    {
      assert LocalOk(s.children[c]);
      ChildBlockedIff(s, c);
    }
  }

  lemma ChildBlockedIff(s: State, c: nat)
    requires c < |s.children| && LocalOk(s.children[c])
    ensures var ch := s.children[c];
            (StepOfChild(s, c).None? <==>
               || (ch.handler == WantsToken && s.sem == 0)
               || (ch.handler == NoHandler && (ch.pc == WantsRequest || ch.pc == WantsExit) && s.sem == 0)
               || (ch.handler == NoHandler && (ch.pc == Paused || ch.pc == Zombie || ch.pc == Reaped)))
            && (StepUsr2(s, c).Some? <==> ch.usr2)
  {
  }
}
