/** What the pipeline wiring guarantees: whatever the order of shell and children, the
    holders of the pipes end up forming exactly a chain. */
module PipelineProof {
  import opened Runs
  import opened Pipeline

  function Lookup(t: Table, fd: nat): Option<End> {
    if fd in t then Some(t[fd]) else None
  }

  /** Which of the six things that can differ from the shell's own table are there: the ends of
      the older and the newer pipe, and the redirected standard input and output. */
  datatype Flags = Flags(oldR: bool, oldW: bool, newR: bool, newW: bool, stdin: bool, stdout: bool)

  function Seen(base: Table, old': Option<Slot>, new': Option<Slot>, f: Flags, fd: nat): Option<End> {
    if f.stdin && fd == STDIN && old'.Some? then Some(ReadEnd(old'.value.k))
    else if f.stdout && fd == STDOUT && new'.Some? then Some(WriteEnd(new'.value.k))
    else if f.oldR && old'.Some? && fd == old'.value.r then Some(ReadEnd(old'.value.k))
    else if f.oldW && old'.Some? && fd == old'.value.w then Some(WriteEnd(old'.value.k))
    else if f.newR && new'.Some? && fd == new'.value.r then Some(ReadEnd(new'.value.k))
    else if f.newW && new'.Some? && fd == new'.value.w then Some(WriteEnd(new'.value.k))
    else Lookup(base, fd)
  }

  ghost predicate Shows(t: Table, base: Table, old': Option<Slot>, new': Option<Slot>, f: Flags) {
    forall fd: nat :: Lookup(t, fd) == Seen(base, old', new', f, fd)
  }

  /** The shell starts with its standard streams open and no pipe. */
  predicate BaseOk(base: Table) {
    STDIN in base && STDOUT in base && forall fd <- base :: base[fd].Other?
  }

  predicate Fresh(base: Table, o: Option<Slot>) {
    o.Some? ==> o.value.r !in base && o.value.w !in base && o.value.r != o.value.w
  }

  predicate Apart(base: Table, a: Option<Slot>, b: Option<Slot>) {
    && Fresh(base, a) && Fresh(base, b)
    && (a.Some? && b.Some? ==>
          a.value.r != b.value.r && a.value.r != b.value.w && a.value.w != b.value.r && a.value.w != b.value.w)
  }

  /** A slot holds pipe k; negative k stands for a slot not filled yet. */
  predicate SlotIs(o: Option<Slot>, k: int) {
    if k < 0 then o.None? else o.Some? && o.value.k == k
  }

  /** The ends of the first n pipes, in the order in which the shell closes them. */
  function Ends(n: int): (r: seq<End>)
    ensures |r| == if n <= 0 then 0 else 2 * n
  {
    if n <= 0 then [] else Ends(n - 1) + [ReadEnd(n - 1), WriteEnd(n - 1)]
  }

  /** Neither end of pipe k, the read end only, or nothing of it is closed. */
  datatype Phase = Open | HalfClosed | Closed

  predicate ClosedUpTo(closed: seq<End>, k: int, ph: Phase) {
    closed == if k < 0 then [] else
                match ph
                case Open => Ends(k)
                case HalfClosed => Ends(k) + [ReadEnd(k)]
                case Closed => Ends(k + 1)
  }

  function ParentFlags(older: Phase, newer: Phase): Flags {
    Flags(older == Open, older != Closed, newer == Open, newer != Closed, false, false)
  }

  /** The shell with pipe j-2 in `older` and pipe j-1 in `newer`. */
  ghost predicate Holding(p: Parent, base: Table, j: nat, older: Phase, newer: Phase) {
    && |p.slots| == 2
    && SlotIs(p.slots[j % 2], j - 2)
    && SlotIs(p.slots[(j + 1) % 2], j - 1)
    && Apart(base, p.slots[j % 2], p.slots[(j + 1) % 2])
    && Shows(p.table, base, p.slots[j % 2], p.slots[(j + 1) % 2], ParentFlags(older, newer))
    && (if newer == Open then ClosedUpTo(p.closed, j - 2, older) else ClosedUpTo(p.closed, j - 1, newer))
  }

  ghost predicate ParentInv(p: Parent, base: Table, i: nat) {
    match p.pc
    case Loop => p.j <= i && Holding(p, base, p.j, Open, Open)
    case CloseR => 0 < p.j < i && Holding(p, base, p.j, Open, Open)
    case CloseW => 0 < p.j < i && Holding(p, base, p.j, HalfClosed, Open)
    case MakePipe => p.j < i && Holding(p, base, p.j, Closed, Open)
    case Fork => p.j < i && Holding(p, base, p.j + 1, Open, Open)
    case EndR0 => p.j == i && Holding(p, base, i, Open, Open)
    case EndW0 => p.j == i && Holding(p, base, i, HalfClosed, Open)
    case EndR1 => p.j == i && Holding(p, base, i, Closed, Open)
    case EndW1 => p.j == i && Holding(p, base, i, Closed, HalfClosed)
    case Wired => p.j == i && Holding(p, base, i, Closed, Closed)
  }

  function ChildFlags(pc: ChildPc, first: bool, last: bool): Flags {
    var inDone := pc != CloseIn && pc != DupIn;
    var outDone := pc == Exec;
    Flags(true, first || pc == CloseIn, last || pc == CloseIn || pc == DupIn || pc == CloseOut, true,
          !first && inDone, !last && outDone)
  }

  ghost predicate ChildInv(c: Child, base: Table, i: nat, j: nat) {
    && c.j == j < i && |c.slots| == 2
    && SlotIs(c.slots[(j + 1) % 2], j - 1)
    && SlotIs(c.slots[j % 2], j)
    && Apart(base, c.slots[(j + 1) % 2], c.slots[j % 2])
    && c.pc != Failed
    && (c.pc == CloseIn || c.pc == DupIn ==> j != 0)
    && (c.pc == CloseOut || c.pc == DupOut ==> j != i - 1)
    && Shows(c.table, base, c.slots[(j + 1) % 2], c.slots[j % 2], ChildFlags(c.pc, j == 0, j == i - 1))
  }

  ghost predicate Inv(s: State, base: Table) {
    && BaseOk(base)
    && ParentInv(s.parent, base, s.i)
    && |s.children| == s.parent.j
    && forall c :: 0 <= c < |s.children| ==> ChildInv(s.children[c], base, s.i, c)
  }

  /** Closing a descriptor takes it out of view and touches nothing else. */
  lemma CloseHides(t: Table, fd: nat, base: Table, o: Option<Slot>, n: Option<Slot>, f: Flags, g: Flags)
    requires Shows(t, base, o, n, f)
    requires forall x: nat :: Seen(base, o, n, g, x) == if x == fd then None else Seen(base, o, n, f, x)
    ensures Shows(Close(t, fd), base, o, n, g)
  {
    forall x: nat ensures Lookup(Close(t, fd), x) == Seen(base, o, n, g, x) {
      assert Lookup(t, x) == Seen(base, o, n, f, x);
    }
  }

  lemma CloseOld(t: Table, write: bool, base: Table, o: Option<Slot>, n: Option<Slot>, f: Flags)
    requires Apart(base, o, n) && Shows(t, base, o, n, f) && !f.stdin && !f.stdout && o.Some?
    ensures write ==> Shows(Close(t, o.value.w), base, o, n, f.(oldW := false))
    ensures !write ==> Shows(Close(t, o.value.r), base, o, n, f.(oldR := false))
  {
    if write {
      CloseHides(t, o.value.w, base, o, n, f, f.(oldW := false));
    } else {
      CloseHides(t, o.value.r, base, o, n, f, f.(oldR := false));
    }
  }

  lemma CloseNew(t: Table, write: bool, base: Table, o: Option<Slot>, n: Option<Slot>, f: Flags)
    requires BaseOk(base) && Apart(base, o, n) && Shows(t, base, o, n, f) && !f.stdout && n.Some?
    ensures write ==> Shows(Close(t, n.value.w), base, o, n, f.(newW := false))
    ensures !write ==> Shows(Close(t, n.value.r), base, o, n, f.(newR := false))
  {
    if write {
      CloseHides(t, n.value.w, base, o, n, f, f.(newW := false));
    } else {
      CloseHides(t, n.value.r, base, o, n, f, f.(newR := false));
    }
  }

  /** Closing an end of the slot that holds the older pipe moves its phase on. */
  lemma CloseOlder(p: Parent, base: Table, j: nat, write: bool, pc: ParentPc)
    requires Holding(p, base, j, if write then HalfClosed else Open, Open)
    ensures Holding(CloseSlot(p, j % 2, write, pc), base, j, if write then Closed else HalfClosed, Open)
  {
    var o, n := p.slots[j % 2], p.slots[(j + 1) % 2];
    var q := CloseSlot(p, j % 2, write, pc);
    var f := ParentFlags(if write then HalfClosed else Open, Open);
    var g := ParentFlags(if write then Closed else HalfClosed, Open);
    if o.Some? {
      CloseOld(p.table, write, base, o, n, f);
      var fd := if write then o.value.w else o.value.r;
      assert Lookup(p.table, fd) == Seen(base, o, n, f, fd);
      NextClosed(p.closed, j - 2, write);
    } else {
      SameView(p.table, base, o, n, f, g);
    }
  }

  /** The same for the newer pipe, once the older one is closed. */
  lemma CloseNewer(p: Parent, base: Table, j: nat, write: bool, pc: ParentPc)
    requires BaseOk(base) && Holding(p, base, j, Closed, if write then HalfClosed else Open)
    ensures Holding(CloseSlot(p, (j + 1) % 2, write, pc), base, j, Closed, if write then Closed else HalfClosed)
  {
    var o, n := p.slots[j % 2], p.slots[(j + 1) % 2];
    var q := CloseSlot(p, (j + 1) % 2, write, pc);
    var f := ParentFlags(Closed, if write then HalfClosed else Open);
    var g := ParentFlags(Closed, if write then Closed else HalfClosed);
    if n.Some? {
      CloseNew(p.table, write, base, o, n, f);
      var fd := if write then n.value.w else n.value.r;
      assert Lookup(p.table, fd) == Seen(base, o, n, f, fd);
      NextClosed(p.closed, j - 1, write);
    } else {
      SameView(p.table, base, o, n, f, g);
    }
    if !write && j >= 1 { assert Ends(j - 1) == if j - 2 < 0 then [] else Ends(j - 2 + 1); }
  }

  lemma NextClosed(closed: seq<End>, k: nat, write: bool)
    requires ClosedUpTo(closed, k, if write then HalfClosed else Open)
    ensures ClosedUpTo(closed + [if write then WriteEnd(k) else ReadEnd(k)], k, if write then Closed else HalfClosed)
  {
    assert Ends(k) + [ReadEnd(k)] + [WriteEnd(k)] == Ends(k) + [ReadEnd(k), WriteEnd(k)];
  }

  /** Flags of a pipe that was never made do not matter. */
  lemma SameView(t: Table, base: Table, o: Option<Slot>, n: Option<Slot>, f: Flags, g: Flags)
    requires Shows(t, base, o, n, f)
    requires forall x: nat :: Seen(base, o, n, f, x) == Seen(base, o, n, g, x)
    ensures Shows(t, base, o, n, g)
  {
    forall x: nat ensures Lookup(t, x) == Seen(base, o, n, g, x) {
      assert Lookup(t, x) == Seen(base, o, n, f, x);
    }
  }

  lemma PipeKeepsHolding(p: Parent, base: Table, r: nat, w: nat)
    requires BaseOk(base) && Holding(p, base, p.j, Closed, Open)
    requires r !in p.table && w !in p.table && r != w
    ensures Holding(p.(pc := Fork, table := p.table[r := ReadEnd(p.j)][w := WriteEnd(p.j)],
                       slots := p.slots[p.j % 2 := Some(Slot(p.j, r, w))]), base, p.j + 1, Open, Open)
  {
    var j := p.j;
    var older, newer := p.slots[j % 2], p.slots[(j + 1) % 2];
    var t' := p.table[r := ReadEnd(j)][w := WriteEnd(j)];
    assert Lookup(p.table, r) == None && Lookup(p.table, w) == None;
    if newer.Some? {
      assert Lookup(p.table, newer.value.r).Some? && Lookup(p.table, newer.value.w).Some?;
    }
    assert (j + 1 + 1) % 2 == j % 2;
    assert Apart(base, newer, Some(Slot(j, r, w)));
    forall fd: nat
      ensures Lookup(t', fd) == Seen(base, newer, Some(Slot(j, r, w)), ParentFlags(Open, Open), fd)
    {
      assert Lookup(p.table, fd) == Seen(base, older, newer, ParentFlags(Closed, Open), fd);
    }
    assert Shows(t', base, newer, Some(Slot(j, r, w)), ParentFlags(Open, Open));
  }

  /** fork: the child starts with both its pipes in view. */
  lemma ForkMakesChild(s: State, base: Table)
    requires Inv(s, base) && s.parent.pc == Fork
    ensures var p := s.parent;
            ChildInv(Child(if p.j != 0 then CloseIn else if p.j != s.i - 1 then CloseOut else Exec,
                           p.j, p.table, p.slots), base, s.i, p.j)
    ensures ParentInv(s.parent.(pc := Loop, j := s.parent.j + 1), base, s.i)
  {
    var p := s.parent;
    var j := p.j;
    assert (j + 1 + 1) % 2 == j % 2;
    var older, newer := p.slots[(j + 1) % 2], p.slots[j % 2];
    var pc := if j != 0 then CloseIn else if j != s.i - 1 then CloseOut else Exec;
    forall fd: nat ensures Lookup(p.table, fd) == Seen(base, older, newer, ChildFlags(pc, j == 0, j == s.i - 1), fd) {
      assert Lookup(p.table, fd) == Seen(base, older, newer, ParentFlags(Open, Open), fd);
    }
  }

  lemma ChildKeepsInv(c: Child, base: Table, i: nat, j: nat)
    requires BaseOk(base) && ChildInv(c, base, i, j) && StepChild(i, c).Some?
    ensures ChildInv(StepChild(i, c).value, base, i, j)
  {
    var older, newer := c.slots[(j + 1) % 2], c.slots[j % 2];
    var f := ChildFlags(c.pc, j == 0, j == i - 1);
    var d := StepChild(i, c).value;
    match c.pc {
      case CloseIn =>
        CloseOld(c.table, true, base, older, newer, f);
      case DupIn =>
        assert Lookup(c.table, older.value.r) == Seen(base, older, newer, f, older.value.r);
        assert forall fd: nat :: Lookup(d.table, fd) == if fd == STDIN then Some(ReadEnd(j - 1)) else Lookup(c.table, fd);
      case CloseOut =>
        CloseNew(c.table, false, base, older, newer, f);
      case DupOut =>
        assert Lookup(c.table, newer.value.w) == Seen(base, older, newer, f, newer.value.w);
        assert forall fd: nat :: Lookup(d.table, fd) == if fd == STDOUT then Some(WriteEnd(j)) else Lookup(c.table, fd);
    }
  }

  lemma ParentKeepsInv(s: State, base: Table)
    requires Inv(s, base) && StepParent(s).Some?
    ensures Inv(StepParent(s).value, base)
  {
    var p := s.parent;
    if p.pc == Fork {
      ForkMakesChild(s, base);
    } else {
      ParentMoveKeeps(s, base);
    }
  }

  lemma ParentMoveKeeps(s: State, base: Table)
    requires BaseOk(base) && ParentInv(s.parent, base, s.i) && StepParent(s).Some? && s.parent.pc != Fork
    ensures ParentInv(StepParent(s).value.parent, base, s.i)
    ensures StepParent(s).value == s.(parent := StepParent(s).value.parent)
    ensures StepParent(s).value.parent.j == s.parent.j
  {
    var p := s.parent;
    var j := p.j;
    if
    case p.pc == Loop => if j == 0 < s.i { ZeroSlots(p, base); }
    case p.pc == CloseR => CloseOlder(p, base, j, false, CloseW); hide Holding;
    case p.pc == CloseW => CloseOlder(p, base, j, true, MakePipe); hide Holding;
    case p.pc == EndR0 => CloseOlder(p, base, j, false, EndW0); hide Holding;
    case p.pc == EndW0 => CloseOlder(p, base, j, true, EndR1); hide Holding;
    case p.pc == EndR1 => CloseNewer(p, base, j, false, EndW1); hide Holding;
    case p.pc == EndW1 => CloseNewer(p, base, j, true, Wired); hide Holding;
  }

  lemma ZeroSlots(p: Parent, base: Table)
    requires Holding(p, base, 0, Open, Open)
    ensures Holding(p.(pc := MakePipe), base, 0, Closed, Open)
  {
    forall fd: nat
      ensures Lookup(p.table, fd) == Seen(base, p.slots[0], p.slots[1], ParentFlags(Closed, Open), fd)
    {
      assert Lookup(p.table, fd) == Seen(base, p.slots[0], p.slots[1], ParentFlags(Open, Open), fd);
    }
  }

  lemma StepKeepsInv(s: State, base: Table, a: Action)
    requires Inv(s, base) && Next(s, a).Some?
    ensures Inv(Next(s, a).value, base)
  {
    match a {
      case ParentMoves => ParentKeepsInv(s, base);
      case ParentPipes(r, w) => PipeKeepsHolding(s.parent, base, r, w);
      case ChildMoves(c) => ChildKeepsInv(s.children[c], base, s.i, c);
    }
  }

  /** The states some order of moves leads to. */
  ghost predicate Reaches(i: nat, base: Table, schedule: seq<Action>, s: State) {
    Runs.Exec(Next, Init(i, base), schedule) == Some(s)
  }

  lemma EveryRunKeepsInv(i: nat, base: Table, schedule: seq<Action>, s: State)
    requires BaseOk(base) && Reaches(i, base, schedule, s)
    ensures Inv(s, base) && s.i == i
  {
    var s0 := Init(i, base);
    var inv := s => Inv(s, base) && s.i == i;
    forall m, a | inv(m) && Next(m, a).Some? ensures inv(Next(m, a).value) {
      StepKeepsInv(m, base, a);
    }
    InvariantHolds(Next, inv, s0, schedule);
  }

  /** Every process has done all its part of the wiring. */
  predicate Done(s: State) {
    s.parent.pc == Wired && forall c :: 0 <= c < |s.children| ==> s.children[c].pc == Exec
  }

  /** Once the shell is done it has no pipe open, whether or not its children have moved. */
  lemma ShellIsClean(i: nat, base: Table, schedule: seq<Action>, s: State)
    requires BaseOk(base) && Reaches(i, base, schedule, s) && s.parent.pc == Wired
    ensures s.parent.table == base && |s.children| == i
  {
    EveryRunKeepsInv(i, base, schedule, s);
    forall fd: nat ensures Lookup(s.parent.table, fd) == Lookup(base, fd) {
      var p := s.parent;
      assert Lookup(p.table, fd) == Seen(base, p.slots[i % 2], p.slots[(i + 1) % 2], ParentFlags(Closed, Closed), fd);
    }
    SameLookupSameTable(s.parent.table, base);
  }

  /** The ends child c of i has when it executes its program: one of each pipe it is between, and
      both of the pipe made for the last child. */
  predicate IsEndOf(e: End, c: nat, i: nat) {
    || (c > 0 && e == ReadEnd(c - 1))
    || (c < i - 1 && e == WriteEnd(c))
    || (c == i - 1 && (e == ReadEnd(c) || e == WriteEnd(c)))
  }

  /** The chain: pipe k joins the standard output, descriptor 1, of child k to the standard input,
      descriptor 0, of child k + 1; nobody else has either of its ends, the last pipe is with the
      last child, and the shell has no end of any pipe.  Everything else a child was to inherit it
      has. */
  lemma HoldersFormAChain(i: nat, base: Table, schedule: seq<Action>, s: State)
    requires BaseOk(base) && Reaches(i, base, schedule, s) && Done(s)
    ensures s.parent.table == base
    ensures |s.children| == i
    ensures forall c, e: End :: 0 <= c < i && !e.Other? ==> (e in s.children[c].table.Values <==> IsEndOf(e, c, i))
    ensures forall c :: 0 <= c < i ==>
              && Lookup(s.children[c].table, 0) == (if c == 0 then Lookup(base, 0) else Some(ReadEnd(c - 1)))
              && Lookup(s.children[c].table, 1) == (if c == i - 1 then Lookup(base, 1) else Some(WriteEnd(c)))
    ensures forall c, fd :: 0 <= c < i && fd in base && fd > 1 ==> Lookup(s.children[c].table, fd) == Some(base[fd])
  {
    EveryRunKeepsInv(i, base, schedule, s);
    ShellIsClean(i, base, schedule, s);
    forall c | 0 <= c < i
      ensures forall e: End :: !e.Other? ==> (e in s.children[c].table.Values <==> IsEndOf(e, c, i))
      ensures Lookup(s.children[c].table, 0) == (if c == 0 then Lookup(base, 0) else Some(ReadEnd(c - 1)))
      ensures Lookup(s.children[c].table, 1) == (if c == i - 1 then Lookup(base, 1) else Some(WriteEnd(c)))
      ensures forall fd :: fd in base && fd > 1 ==> Lookup(s.children[c].table, fd) == Some(base[fd])
    {
      ChildHolds(s.children[c], base, i, c);
    }
  }

  lemma SameLookupSameTable(a: Table, b: Table)
    requires forall fd: nat :: Lookup(a, fd) == Lookup(b, fd)
    ensures a == b
  {
    forall fd: nat ensures fd in a <==> fd in b {
      assert Lookup(a, fd) == Lookup(b, fd);
    }
    forall fd | fd in a ensures a[fd] == b[fd] {
      assert Lookup(a, fd) == Lookup(b, fd);
    }
  }

  lemma ChildHolds(c: Child, base: Table, i: nat, j: nat)
    requires BaseOk(base) && ChildInv(c, base, i, j) && c.pc == Exec
    ensures forall e: End :: !e.Other? ==> (e in c.table.Values <==> IsEndOf(e, j, i))
    ensures Lookup(c.table, 0) == (if j == 0 then Lookup(base, 0) else Some(ReadEnd(j - 1)))
    ensures Lookup(c.table, 1) == (if j == i - 1 then Lookup(base, 1) else Some(WriteEnd(j)))
    ensures forall fd :: fd in base && fd > 1 ==> Lookup(c.table, fd) == Some(base[fd])
  {
    var older, newer := c.slots[(j + 1) % 2], c.slots[j % 2];
    var f := ChildFlags(Exec, j == 0, j == i - 1);
    assert forall fd: nat :: Lookup(c.table, fd) == Seen(base, older, newer, f, fd);
    assert Lookup(c.table, 0) == Seen(base, older, newer, f, 0);
    assert Lookup(c.table, 1) == Seen(base, older, newer, f, 1);
    if j != i - 1 {
      assert c.table[1] == WriteEnd(j) && WriteEnd(j) in c.table.Values;
    } else {
      assert Lookup(c.table, newer.value.r) == Some(ReadEnd(j)) && Lookup(c.table, newer.value.w) == Some(WriteEnd(j));
      assert c.table[newer.value.r] in c.table.Values && c.table[newer.value.w] in c.table.Values;
    }
    if j != 0 { assert c.table[0] == ReadEnd(j - 1) && ReadEnd(j - 1) in c.table.Values; }
    forall e: End | !e.Other? && e in c.table.Values ensures IsEndOf(e, j, i) {
      var fd :| fd in c.table && c.table[fd] == e;
      assert Lookup(c.table, fd) == Some(e);
    }
    forall fd | fd in base && fd > 1 ensures Lookup(c.table, fd) == Some(base[fd]) {
      assert Lookup(c.table, fd) == Seen(base, older, newer, f, fd);
    }
  }

  /** The shell closes every end of every pipe exactly once, although a pipe's slot is reused
      for the pipe made two turns later. */
  lemma EveryEndClosedOnce(i: nat, base: Table, schedule: seq<Action>, s: State)
    requires BaseOk(base) && Reaches(i, base, schedule, s) && s.parent.pc == Wired
    ensures |s.parent.closed| == 2 * i
    ensures forall k :: 0 <= k < i ==> ReadEnd(k) in s.parent.closed && WriteEnd(k) in s.parent.closed
    ensures forall x, y :: 0 <= x < y < 2 * i ==> s.parent.closed[x] != s.parent.closed[y]
  {
    EveryRunKeepsInv(i, base, schedule, s);
    EndsAreDistinct(i);
    assert s.parent.closed == Ends(i);
  }

  lemma {:induction false} EndsAreDistinct(n: nat)
    ensures forall k :: 0 <= k < n ==> ReadEnd(k) in Ends(n) && WriteEnd(k) in Ends(n)
    ensures forall e <- Ends(n) :: !e.Other? && e.k < n
    ensures forall x, y :: 0 <= x < y < 2 * n ==> Ends(n)[x] != Ends(n)[y]
  {
    if n > 0 {
      EndsAreDistinct(n - 1);
      var front := Ends(n - 1);
      var all := Ends(n);
      assert all == front + [ReadEnd(n - 1), WriteEnd(n - 1)];
      assert all[2 * n - 2] == ReadEnd(n - 1) && all[2 * n - 1] == WriteEnd(n - 1);
      forall k | 0 <= k < n - 1 ensures ReadEnd(k) in all && WriteEnd(k) in all {
        assert ReadEnd(k) in front && WriteEnd(k) in front;
      }
      forall x, y | 0 <= x < y < 2 * n ensures all[x] != all[y] {
        if x < 2 * n - 2 { assert all[x] == front[x] && front[x] in front; }
        if y < 2 * n - 2 { assert all[y] == front[y]; }
      }
    }
  }

  /** No close of the shell ever hits a descriptor it had already given up: the descriptors of
      a filled slot are open when the shell turns to closing them. */
  lemma EveryCloseIsOfAnOpenPipe(i: nat, base: Table, schedule: seq<Action>, s: State)
    requires BaseOk(base) && Reaches(i, base, schedule, s)
    ensures var p := s.parent;
            && |p.slots| == 2
            && (p.pc == CloseR && p.j >= 2 ==>
                  p.slots[p.j % 2].Some? && Lookup(p.table, p.slots[p.j % 2].value.r) == Some(ReadEnd(p.j - 2)))
            && (p.pc == CloseW && p.j >= 2 ==>
                  p.slots[p.j % 2].Some? && Lookup(p.table, p.slots[p.j % 2].value.w) == Some(WriteEnd(p.j - 2)))
  {
    EveryRunKeepsInv(i, base, schedule, s);
    var p := s.parent;
    if (p.pc == CloseR || p.pc == CloseW) && p.j >= 2 {
      var slot := p.slots[p.j % 2].value;
      var f := ParentFlags(if p.pc == CloseR then Open else HalfClosed, Open);
      assert Shows(p.table, base, p.slots[p.j % 2], p.slots[(p.j + 1) % 2], f);
      assert Lookup(p.table, slot.r) == Seen(base, p.slots[p.j % 2], p.slots[(p.j + 1) % 2], f, slot.r);
      assert Lookup(p.table, slot.w) == Seen(base, p.slots[p.j % 2], p.slots[(p.j + 1) % 2], f, slot.w);
    }
  }

  /** A descriptor the table does not use. */
  lemma {:induction false} FreeDescriptor(used: set<nat>) returns (fd: nat)
    ensures forall x <- used :: x < fd
  {
    if used == {} {
      fd := 0;
    } else {
      var x :| x in used;
      fd := FreeDescriptor(used - {x});
      assert forall y <- used :: y == x || y in used - {x};
      fd := if x >= fd then x + 1 else fd;
    }
  }

  /** Wiring never gets stuck and no dup2 fails: some process can move until all are done. */
  lemma WiringGoesOn(i: nat, base: Table, schedule: seq<Action>, s: State) returns (a: Action)
    requires BaseOk(base) && Reaches(i, base, schedule, s)
    ensures forall c :: 0 <= c < |s.children| ==> s.children[c].pc != Failed
    ensures !Done(s) ==> Next(s, a).Some?
    ensures Done(s) ==> forall b :: Next(s, b).None?
  {
    EveryRunKeepsInv(i, base, schedule, s);
    if Done(s) {
      a := ParentMoves;
    } else if s.parent.pc == Wired {
      var c :| 0 <= c < |s.children| && s.children[c].pc != Exec;
      assert ChildInv(s.children[c], base, i, c);
      a := ChildMoves(c);
    } else if s.parent.pc == MakePipe {
      var fd := FreeDescriptor(s.parent.table.Keys);
      a := ParentPipes(fd, fd + 1);
      assert fd !in s.parent.table && fd + 1 !in s.parent.table;
    } else {
      a := ParentMoves;
    }
  }

  function ParentLeft(p: Parent, i: nat): int {
    9 * (i - p.j) + match p.pc
      case Loop => 5
      case CloseR => 4 case CloseW => 3 case MakePipe => 2 case Fork => 1
      case EndR0 => 4 case EndW0 => 3 case EndR1 => 2 case EndW1 => 1 case Wired => 0
  }

  function ChildLeft(pc: ChildPc): nat {
    match pc case CloseIn => 4 case DupIn => 3 case CloseOut => 2 case DupOut => 1 case Exec => 0 case Failed => 0
  }

  function ChildrenLeft(cs: seq<Child>): nat {
    if cs == [] then 0 else ChildrenLeft(cs[..|cs| - 1]) + ChildLeft(cs[|cs| - 1].pc)
  }

  lemma {:induction false} ChildrenLeftAt(cs: seq<Child>, c: nat, d: Child)
    requires c < |cs|
    ensures ChildrenLeft(cs[c := d]) == ChildrenLeft(cs) - ChildLeft(cs[c].pc) + ChildLeft(d.pc)
  {
    var n := |cs| - 1;
    if c == n {
      assert cs[c := d][..n] == cs[..n];
    } else {
      assert cs[c := d][..n] == cs[..n][c := d];
      ChildrenLeftAt(cs[..n], c, d);
    }
  }

  function Measure(s: State): nat {
    var m := ParentLeft(s.parent, s.i) + ChildrenLeft(s.children);
    if m < 0 then 0 else m
  }

  lemma ParentLowers(p: Parent, base: Table, i: nat)
    requires ParentInv(p, base, i)
    ensures 0 <= ParentLeft(p, i)
    ensures p.j < i ==> ParentLeft(p, i) >= 10
    ensures forall s: State :: s.parent == p && s.i == i && p.pc != Fork && StepParent(s).Some? ==>
                          ParentLeft(StepParent(s).value.parent, i) < ParentLeft(p, i)
  {
    hide Holding, Close, Seen;
  }

  lemma ForkLowers(s: State, base: Table)
    requires ParentInv(s.parent, base, s.i) && s.parent.pc == Fork && StepParent(s).Some?
    ensures Measure(StepParent(s).value) < Measure(s)
  {
    hide Holding;
    var p, t := s.parent, StepParent(s).value;
    var d := t.children[|s.children|];
    assert t.children[..|s.children|] == s.children;
    assert ChildrenLeft(t.children) == ChildrenLeft(s.children) + ChildLeft(d.pc);
    ParentLowers(p, base, s.i);
    assert t.parent.pc == Loop && t.parent.j == p.j + 1;
  }

  lemma StepLowersMeasure(s: State, base: Table, a: Action)
    requires Inv(s, base) && Next(s, a).Some?
    ensures Measure(Next(s, a).value) < Measure(s)
  {
    ParentLowers(s.parent, base, s.i);
    match a {
      case ParentMoves =>
        if s.parent.pc == Fork {
          ForkLowers(s, base);
        } else {
          ParentMoveKeeps(s, base);
          ParentLowers(StepParent(s).value.parent, base, s.i);
        }
      case ParentPipes(r, w) =>
      case ChildMoves(c) =>
        ChildLowers(s.children[c], base, s.i, c);
        ChildrenLeftAt(s.children, c, StepChild(s.i, s.children[c]).value);
    }
  }

  lemma ChildLowers(c: Child, base: Table, i: nat, j: nat)
    requires ChildInv(c, base, i, j) && StepChild(i, c).Some?
    ensures ChildLeft(StepChild(i, c).value.pc) < ChildLeft(c.pc)
  {
  }

  /** However the processes interleave, wiring i programs takes at most 9 i + 5 steps. */
  lemma RunLength(i: nat, base: Table, schedule: seq<Action>, s: State)
    requires BaseOk(base) && Reaches(i, base, schedule, s)
    ensures |schedule| <= 9 * i + 5
  {
    var inv := s => Inv(s, base);
    forall m, a | inv(m) && Next(m, a).Some?
      ensures inv(Next(m, a).value) && Measure(Next(m, a).value) < Measure(m)
    {
      StepKeepsInv(m, base, a);
      StepLowersMeasure(m, base, a);
    }
    LengthAtMost(Next, inv, Measure, Init(i, base), schedule);
  }

  /** Nobody waits for anybody: each child can go on until it executes its program, and the shell
      until all is wired, with any two free descriptors a pipe is given. */
  lemma NobodyWaits(i: nat, base: Table, schedule: seq<Action>, s: State)
    requires BaseOk(base) && Reaches(i, base, schedule, s)
    ensures forall c :: 0 <= c < |s.children| ==> (Next(s, ChildMoves(c)).Some? <==> s.children[c].pc != Exec)
    ensures Next(s, ParentMoves).Some? <==> s.parent.pc != MakePipe && s.parent.pc != Wired
    ensures forall r: nat, w: nat :: Next(s, ParentPipes(r, w)).Some? <==>
              s.parent.pc == MakePipe && r !in s.parent.table && w !in s.parent.table && r != w
  {
    EveryRunKeepsInv(i, base, schedule, s);
    forall c | 0 <= c < |s.children| ensures Next(s, ChildMoves(c)).Some? <==> s.children[c].pc != Exec {
      assert ChildInv(s.children[c], base, i, c);
    }
  }
}
