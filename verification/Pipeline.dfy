/** Wiring a pipeline of i programs: the shell forks one child a program and reuses a table of
    two pipe slots; each child redirects its input and output and closes what it does not use.
    Parent and children run in any order; a child starts with a copy of the parent's memory
    and of its descriptor table, as fork gives it. */
module Pipeline {
  import opened Runs

  /** What a descriptor refers to: an end of the k-th pipe the shell made, or something else. */
  datatype End = ReadEnd(k: nat) | WriteEnd(k: nat) | Other(name: nat)

  type Table = map<nat, End>

  /** One entry of `pipes`: two descriptors, and (history) which pipe they were made for. */
  datatype Slot = Slot(k: nat, r: nat, w: nat)

  datatype ParentPc =
    | Loop                  // j < i
    | CloseR | CloseW       // close(pipes[j % 2][0]), close(pipes[j % 2][1])
    | MakePipe              // pipe(pipes[j % 2])
    | Fork
    | EndR0 | EndW0         // close(pipes[j % 2][..]) after the loop
    | EndR1 | EndW1         // close(pipes[(j + 1) % 2][..])
    | Wired

  /** closed records the pipe ends the shell has closed, in order. */
  datatype Parent = Parent(pc: ParentPc, j: nat, table: Table, slots: seq<Option<Slot>>, closed: seq<End>)

  datatype ChildPc =
    | CloseIn               // close(pipes[(j + 1) % 2][1])
    | DupIn                 // dup2(pipes[(j + 1) % 2][0], STDIN_FILENO)
    | CloseOut              // close(pipes[j % 2][0])
    | DupOut                // dup2(pipes[j % 2][1], STDOUT_FILENO)
    | Exec
    | Failed

  datatype Child = Child(pc: ChildPc, j: nat, table: Table, slots: seq<Option<Slot>>)

  datatype State = State(i: nat, parent: Parent, children: seq<Child>)

  datatype Action =
    | ParentMoves
    | ParentPipes(r: nat, w: nat)   // pipe gives these two descriptors
    | ChildMoves(c: nat)

  const STDIN := 0
  const STDOUT := 1

  /** close; a descriptor that is not open, or a slot never filled, is left alone. */
  function Close(t: Table, fd: nat): Table { t - {fd} }

  /** dup2 of an open descriptor: the new one refers to the same end, whatever it referred to. */
  function Dup2(t: Table, old': nat, new': nat): Table
    requires old' in t
  {
    t[new' := t[old']]
  }

  function CloseSlot(p: Parent, x: nat, write: bool, pc: ParentPc): Parent
    requires x < |p.slots|
  {
    match p.slots[x]
    case None => p.(pc := pc)
    case Some(s) =>
      var fd := if write then s.w else s.r;
      p.(pc := pc, table := Close(p.table, fd), closed := if fd in p.table then p.closed + [p.table[fd]] else p.closed)
  }

  function StepParent(s: State): Option<State> {
    var p := s.parent;
    if |p.slots| != 2 then None
    else
      match p.pc
      case Loop =>
        Some(s.(parent := p.(pc := if p.j < s.i then (if p.j > 0 then CloseR else MakePipe) else EndR0)))
      case CloseR => Some(s.(parent := CloseSlot(p, p.j % 2, false, CloseW)))
      case CloseW => Some(s.(parent := CloseSlot(p, p.j % 2, true, MakePipe)))
      case MakePipe => None
      case Fork =>
        Some(s.(children := s.children + [Child(if p.j != 0 then CloseIn else if p.j != s.i - 1 then CloseOut else Exec,
                                                p.j, p.table, p.slots)],
                parent := p.(pc := Loop, j := p.j + 1)))
      case EndR0 => Some(s.(parent := CloseSlot(p, p.j % 2, false, EndW0)))
      case EndW0 => Some(s.(parent := CloseSlot(p, p.j % 2, true, EndR1)))
      case EndR1 => Some(s.(parent := CloseSlot(p, (p.j + 1) % 2, false, EndW1)))
      case EndW1 => Some(s.(parent := CloseSlot(p, (p.j + 1) % 2, true, Wired)))
      case Wired => None
  }

  /** pipe: two free descriptors become the ends of a new pipe. */
  function StepPipe(s: State, r: nat, w: nat): Option<State> {
    var p := s.parent;
    if |p.slots| != 2 || p.pc != MakePipe || r in p.table || w in p.table || r == w then None
    else
      Some(s.(parent := p.(pc := Fork, table := p.table[r := ReadEnd(p.j)][w := WriteEnd(p.j)],
                           slots := p.slots[p.j % 2 := Some(Slot(p.j, r, w))])))
  }

  function SlotOf(c: Child, x: nat): Slot
    requires x < |c.slots|
  {
    match c.slots[x] case Some(s) => s case None => Slot(0, 0, 0)
  }

  function StepChild(i: nat, c: Child): Option<Child> {
    if |c.slots| != 2 then None
    else
      var prev, cur := SlotOf(c, (c.j + 1) % 2), SlotOf(c, c.j % 2);
      match c.pc
      case CloseIn => Some(c.(pc := DupIn, table := Close(c.table, prev.w)))
      case DupIn =>
        if prev.r in c.table
        then Some(c.(pc := if c.j != i - 1 then CloseOut else Exec, table := Dup2(c.table, prev.r, STDIN)))
        else Some(c.(pc := Failed))
      case CloseOut => Some(c.(pc := DupOut, table := Close(c.table, cur.r)))
      case DupOut =>
        if cur.w in c.table
        then Some(c.(pc := Exec, table := Dup2(c.table, cur.w, STDOUT)))
        else Some(c.(pc := Failed))
      case Exec => None
      case Failed => None
  }

  function Next(s: State, a: Action): Option<State> {
    match a
    case ParentMoves => StepParent(s)
    case ParentPipes(r, w) => StepPipe(s, r, w)
    case ChildMoves(c) =>
      if c >= |s.children| then None
      else
        match StepChild(s.i, s.children[c])
        case None => None
        case Some(c') => Some(s.(children := s.children[c := c']))
  }

  /** The shell about to wire i programs, with `base` open. */
  function Init(i: nat, base: Table): State {
    State(i, Parent(Loop, 0, base, [None, None], []), [])
  }
}
