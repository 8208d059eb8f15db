/** The barrier program's variables as they lie in memory, changed in place by its main code,
    its handlers and its children; each method performs one action of the step function. */
module BarrierMemory {
  import opened Runs
  import opened Barrier
  import BarrierProof
  import BarrierTheorems

  class Memory {
    const N: nat
    const K: nat
    const childBuf: array<nat>
    var flag: nat                     // the semaphore
    var main: Main
    var frames: seq<Frame>
    var usr1: Option<nat>
    var chld: Option<nat>
    var rt: nat
    var n: nat
    var k: nat
    var children: seq<Child>
    ghost var handled: seq<nat>

    constructor (N: nat, K: nat)
      ensures fresh(childBuf) && this.N == N && this.K == K && View() == Init(N, K)
    {
      this.N, this.K := N, K;
      childBuf := new nat[N](_ => 0);
      flag, main, frames, usr1, chld := 0, Forking, [], None, None;
      rt, n, k, children, handled := 0, 0, 0, [], [];
      new;
      assert childBuf[..] == seq(N, _ => 0);
    }

    ghost function View(): State
      reads this, childBuf
    {
      State(N, K, flag, Parent(main, frames, usr1, chld, rt, n, k, childBuf[..], handled), children)
    }

    method MainStep() returns (ok: bool)
      modifies this
      ensures StepMain(old(View())) == if ok then Some(View()) else None
      ensures !ok ==> View() == old(View())
    {
      if frames != [] { return false; }
      ok := true;
      match main
      case Forking =>
        if |children| < N {
          children := children + [Child(Asleep, NoHandler, false, 0, false)];
        } else {
          main := Posting;
        }
      case Posting =>
        flag := flag + 1;
        main := Test;
      case Test => main := if n == N then Over else Checked;
      case Checked => main := Pausing;
      case Pausing => ok := false;
      case Over => ok := false;
    }

    method Kill(c: nat)
      modifies this`children
      ensures children == Permit(old(children), c)
    {
      if c < |children| {
        children := children[c := children[c].(usr2 := true, permits := children[c].permits + 1)];
      }
    }

    /** catchUSR1, one step: record and count, permit, post. */
    method Usr1Step(c: nat, phase: Phase) returns (ok: bool)
      requires frames != [] && frames[|frames| - 1] == Usr1(c, phase)
      modifies this, childBuf
      ensures StepHandler(old(View())) == if ok then Some(View()) else None
      ensures !ok ==> View() == old(View())
    {
      ok := true;
      var last := |frames| - 1;
      match phase
      case Record =>
        if k < K {
          if k >= childBuf.Length { return false; }
          childBuf[k] := c;
        }
        k := k + 1;
        handled := handled + [c];
        frames := frames[last := Usr1(c, if k > K then Single else if k == K then Bulk(0) else Post)];
      case Bulk(l) =>
        if l < k {
          if l >= childBuf.Length { return false; }
          Kill(childBuf[l]);
          frames := frames[last := Usr1(c, Bulk(l + 1))];
        } else {
          frames := frames[last := Usr1(c, Post)];
        }
      case Single =>
        Kill(c);
        frames := frames[last := Usr1(c, Post)];
      case Post =>
        flag := flag + 1;
        frames := frames[..last];
    }

    method HandlerStep() returns (ok: bool)
      modifies this, childBuf
      ensures StepHandler(old(View())) == if ok then Some(View()) else None
      ensures !ok ==> View() == old(View())
    {
      if frames == [] { return false; }
      match frames[|frames| - 1]
      case Usr1(c, phase) => ok := Usr1Step(c, phase);
      case Chld(_, reaped) =>
        ok := reaped;
        if ok {
          flag := flag + 1;
          frames := frames[..|frames| - 1];
        }
    }

    /** The wait() of catchSIGCHLD. */
    method ReapStep(c: nat) returns (ok: bool)
      modifies this
      ensures StepReap(old(View()), c) == if ok then Some(View()) else None
      ensures !ok ==> View() == old(View())
    {
      if frames == [] || c >= |children| || children[c].pc != Zombie { return false; }
      var last := |frames| - 1;
      ok := frames[last].Chld? && !frames[last].reaped;
      if ok {
        children := children[c := children[c].(pc := Reaped)];
        frames := frames[last := frames[last].(reaped := true)];
      }
    }

    method ChildStep(c: nat) returns (ok: bool)
      modifies this
      ensures StepOfChild(old(View()), c) == if ok then Some(View()) else None
      ensures !ok ==> View() == old(View())
    {
      if c >= |children| { return false; }
      var ch := children[c];
      match StepChild(ch)
      case None => ok := false;
      case Some((next, token)) =>
        ok := flag + token >= 0;
        if ok {
          flag := flag + token;
          children := children[c := next];
          if ch.handler == HasToken {
            rt := rt + 1;
          } else if ch.handler == NoHandler && ch.pc == Requesting {
            if usr1.None? { usr1 := Some(c); }
          } else if ch.handler == NoHandler && ch.pc == Exiting {
            if chld.None? { chld := Some(c); }
          }
        }
    }

    /** A signal interrupts the parent's main code or a handler of another signal. */
    method Deliver(a: Action) returns (ok: bool)
      requires a == TakeUsr1 || a == TakeChld || a == TakeRt
      modifies this
      ensures Next(old(View()), a) == if ok then Some(View()) else None
      ensures !ok ==> View() == old(View())
    {
      if main == Over { return false; }
      match a {
        case TakeUsr1 =>
          ok := usr1.Some? && NoUsr1(frames);
          if ok { frames, usr1 := frames + [Usr1(usr1.value, Record)], None; }
        case TakeChld =>
          ok := chld.Some? && NoChld(frames);
          if ok { frames, chld := frames + [Chld(chld.value, false)], None; }
        case TakeRt =>
          ok := rt > 0;
          if ok { rt, n := rt - 1, n + 1; }
      }
      if ok && main == Pausing { main := Test; }
    }

    method Step(a: Action) returns (ok: bool)
      modifies this, childBuf
      ensures Next(old(View()), a) == if ok then Some(View()) else None
      ensures !ok ==> View() == old(View())
    {
      if main == Over { return false; }
      match a
      case MainMoves => ok := MainStep();
      case TakeUsr1 => ok := Deliver(a);
      case TakeChld => ok := Deliver(a);
      case TakeRt => ok := Deliver(a);
      case HandlerMoves => ok := HandlerStep();
      case Reap(c) => ok := ReapStep(c);
      case ChildMoves(c) => ok := ChildStep(c);
      case TakeUsr2(c) =>
        ok := c < |children| && children[c].usr2 && children[c].handler == NoHandler;
        if ok { children := children[c := children[c].(usr2 := false, handler := WantsToken)]; }
    }

    /** A whole run in place, until the schedule is done or names someone who is blocked. */
    method Run(schedule: seq<Action>) returns (done: nat)
      requires BarrierProof.Inv(View())
      modifies this, childBuf
      ensures done <= |schedule|
      ensures Exec(Next, old(View()), schedule[..done]) == Some(View())
      ensures done < |schedule| ==> Next(View(), schedule[done]) == None
      ensures BarrierProof.Inv(View())
    {
      hide Next, BarrierProof.Inv;
      done := 0;
      var ok := true;
      while done < |schedule|
        invariant done <= |schedule|
        invariant Exec(Next, old(View()), schedule[..done]) == Some(View())
        invariant BarrierProof.Inv(View())
      {
        ghost var before := View();
        ok := Step(schedule[done]);
        if !ok { break; }
        BarrierTheorems.StepKeepsInv(before, schedule[done]);
        assert schedule[..done + 1][..done] == schedule[..done];
        done := done + 1;
      }
    }
  }

  /** The whole program, for as long as the schedule goes or can go.  At any time there is one
      token in it; between handlers exactly the right children are permitted; no child works
      before K have asked; and when it is over all have worked. */
  method Meet(N: nat, K: nat, schedule: seq<Action>) returns (m: Memory, done: nat)
    ensures fresh(m) && done <= |schedule| && (done < |schedule| ==> Next(m.View(), schedule[done]) == None)
    ensures BarrierTheorems.Reaches(N, K, schedule[..done], m.View())
    ensures m.flag + (if m.main == Forking || m.main == Posting then 1 else 0) + (if m.usr1.Some? then 1 else 0)
            + (if m.chld.Some? then 1 else 0) + |m.frames| + BarrierTheorems.Holding(m.children) == 1
    ensures m.frames == [] ==>
              && m.k == |m.handled| <= N
              && forall i :: 0 <= i < |m.children| ==>
                   m.children[i].permits == if m.k >= K && i in m.handled then 1 else 0
    ensures m.k < K ==> m.n == 0
    ensures m.main == Over ==> |m.children| == N && forall i :: 0 <= i < N ==> m.children[i].worked
    ensures BarrierTheorems.Stuck(m.View()) && m.main != Over ==>
              m.n == if K <= N then N else 0
  {
    m := new Memory(N, K);
    BarrierProof.InitInv(N, K);
    done := m.Run(schedule);
    ghost var s := m.View();
    BarrierTheorems.OneToken(N, K, schedule[..done], s);
    if m.frames == [] { BarrierTheorems.PermittedChildren(N, K, schedule[..done], s); }
    BarrierTheorems.WorkFollowsPermission(N, K, schedule[..done], s);
    BarrierTheorems.StuckIff(N, K, schedule[..done], s);
    if BarrierTheorems.Hung(s) { BarrierTheorems.WhatHungMeans(N, K, schedule[..done], s); }
  }
}
