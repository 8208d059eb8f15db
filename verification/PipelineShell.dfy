/** The shell's wiring loop in place: it refills its two-slot table of pipes turn by turn, and
    what it does is one of the runs of the pipeline, in which the children have not moved yet. */
module PipelineShell {
  import opened Runs
  import opened Pipeline
  import PipelineProof

  lemma {:induction false} Initial(fd: nat, used: set<nat>)
    requires forall x: nat :: x < fd ==> x in used
    ensures fd <= |used|
  {
    if fd > 0 {
      Initial(fd - 1, used - {fd - 1});
      assert |used - {fd - 1}| == |used| - 1;
    }
  }

  /** The system hands out the lowest descriptor that is free. */
  method LowestFree(t: Table) returns (fd: nat)
    ensures fd !in t && forall x: nat :: x < fd ==> x in t
  {
    fd := 0;
    while fd in t
      invariant forall x: nat :: x < fd ==> x in t
      decreases |t.Keys| - fd
    {
      fd := fd + 1;
      assert forall x: nat :: x < fd ==> x in t.Keys;
      Initial(fd, t.Keys);
    }
  }

  /** The closes of the loop, each with the slot and the end it is for. */
  predicate IsClose(pc: ParentPc, j: nat, x: nat, write: bool, pc': ParentPc) {
    match pc
    case CloseR => x == j % 2 && !write && pc' == CloseW
    case CloseW => x == j % 2 && write && pc' == MakePipe
    case EndR0 => x == j % 2 && !write && pc' == EndW0
    case EndW0 => x == j % 2 && write && pc' == EndR1
    case EndR1 => x == (j + 1) % 2 && !write && pc' == EndW1
    case EndW1 => x == (j + 1) % 2 && write && pc' == Wired
    case _ => false
  }

  lemma CloseIs(s: State, x: nat, write: bool, pc': ParentPc)
    requires |s.parent.slots| == 2 && IsClose(s.parent.pc, s.parent.j, x, write, pc')
    ensures x < 2 && Next(s, ParentMoves) == Some(s.(parent := CloseSlot(s.parent, x, write, pc')))
  {
  }

  lemma LoopTestIs(s: State)
    requires |s.parent.slots| == 2 && s.parent.pc == Loop
    ensures Next(s, ParentMoves) ==
            Some(s.(parent := s.parent.(pc := if s.parent.j < s.i then (if s.parent.j > 0 then CloseR else MakePipe) else EndR0)))
  {
  }

  class Shell {
    const i: nat
    const pipes: array<Option<Slot>>
    var j: nat
    var table: Table
    var children: seq<Child>
    ghost var closed: seq<End>
    ghost var moves: seq<Action>

    constructor (i: nat, base: Table)
      ensures fresh(pipes) && this.i == i && View(Loop) == Init(i, base) && At(base, Loop)
    {
      this.i := i;
      pipes := new Option<Slot>[2](_ => None);
      j, table, children, closed, moves := 0, base, [], [], [];
      new;
      assert pipes[..] == [None, None];
    }

    ghost function View(pc: ParentPc): State
      reads this, pipes
    {
      State(i, Parent(pc, j, table, pipes[..], closed), children)
    }

    /** The moves made so far lead the pipeline here. */
    ghost predicate At(base: Table, pc: ParentPc)
      reads this, pipes
    {
      pipes.Length == 2 && Runs.Exec(Next, Init(i, base), moves) == Some(View(pc))
    }

    /** close(pipes[x][end]) */
    method CloseEnd(x: nat, write: bool, ghost base: Table, ghost pc: ParentPc, ghost pc': ParentPc)
      requires At(base, pc) && IsClose(pc, j, x, write, pc')
      modifies this`table, this`closed, this`moves
      ensures At(base, pc')
    {
      ghost var before := View(pc);
      CloseIs(before, x, write, pc');
      hide Next;
      match pipes[x] {
        case None =>
        case Some(s) =>
          var fd := if write then s.w else s.r;
          if fd in table { closed := closed + [table[fd]]; }
          table := table - {fd};
      }
      Moved(base, before, ParentMoves, View(pc'));
      moves := moves + [ParentMoves];
    }

    lemma Moved(base: Table, before: State, a: Action, after: State)
      requires Runs.Exec(Next, Init(i, base), moves) == Some(before) && Next(before, a) == Some(after)
      ensures Runs.Exec(Next, Init(i, base), moves + [a]) == Some(after)
    {
      assert (moves + [a])[..|moves|] == moves;
    }

    /** The loop's test. */
    ghost method Tested(base: Table, pc': ParentPc)
      requires At(base, Loop) && pc' == if j < i then (if j > 0 then CloseR else MakePipe) else EndR0
      modifies this`moves
      ensures At(base, pc')
    {
      LoopTestIs(View(Loop));
      Moved(base, View(Loop), ParentMoves, View(pc'));
      moves := moves + [ParentMoves];
    }

    method MakePipeAt(x: nat, ghost base: Table)
      requires At(base, MakePipe) && x == j % 2
      modifies this`table, this`moves, pipes
      ensures At(base, Fork)
    {
      hide Runs.Exec;
      ghost var before := View(MakePipe);
      var r := LowestFree(table);
      var w := LowestFree(table[r := ReadEnd(j)]);
      table := table[r := ReadEnd(j)][w := WriteEnd(j)];
      pipes[x] := Some(Slot(j, r, w));
      assert pipes[..] == before.parent.slots[x := Some(Slot(j, r, w))];
      Moved(base, before, ParentPipes(r, w), View(Fork));
      moves := moves + [ParentPipes(r, w)];
    }

    /** fork: the child has a copy of the table and of the pipes. */
    method ForkChild(ghost base: Table)
      requires At(base, Fork)
      modifies this`j, this`children, this`moves
      ensures At(base, Loop) && j == old(j) + 1
    {
      ghost var before := View(Fork);
      var pc := if j != 0 then CloseIn else if j != i - 1 then CloseOut else ChildPc.Exec;
      children := children + [Child(pc, j, table, pipes[..])];
      j := j + 1;
      Moved(base, before, ParentMoves, View(Loop));
      moves := moves + [ParentMoves];
    }

    method Wire(ghost base: Table)
      requires At(base, Loop) && j == 0
      modifies this, pipes
      ensures At(base, Wired)
    {
      hide At;
      while j < i
        invariant At(base, Loop) && j <= i
      {
        if j > 0 {
          Tested(base, CloseR);
          CloseEnd(j % 2, false, base, CloseR, CloseW);
          CloseEnd(j % 2, true, base, CloseW, MakePipe);
        } else {
          Tested(base, MakePipe);
        }
        MakePipeAt(j % 2, base);
        ForkChild(base);
      }
      Tested(base, EndR0);
      CloseEnd(j % 2, false, base, EndR0, EndW0);
      CloseEnd(j % 2, true, base, EndW0, EndR1);
      CloseEnd((j + 1) % 2, false, base, EndR1, EndW1);
      CloseEnd((j + 1) % 2, true, base, EndW1, Wired);
    }
  }

  /** The loop leaves the shell with the table it began with, and i children. */
  method WirePipeline(i: nat, base: Table) returns (shell: Shell)
    requires PipelineProof.BaseOk(base)
    ensures fresh(shell) && shell.table == base && |shell.children| == i
    ensures exists schedule :: PipelineProof.Reaches(i, base, schedule, shell.View(Wired))
  {
    shell := new Shell(i, base);
    shell.Wire(base);
    PipelineProof.ShellIsClean(i, base, shell.moves, shell.View(Wired));
    assert PipelineProof.Reaches(i, base, shell.moves, shell.View(Wired));
  }
}
