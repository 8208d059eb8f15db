/** The library of block arrays: an array of pointers to zero-terminated texts, in which a
    block is added or removed at an index by a chain of neighbour swaps. */
module Blocks {
  import opened Runs
  import opened CStrings

  type Block = array<char>

  /** The value of a C char, which has eight bits and is signed. */
  function CharValue(c: char): (v: int)
    ensures -128 <= v < 128 && (v - c as int) % 256 == 0
  {
    (c as int + 128) % 256 - 128
  }

  /** Each block holds a zero; what stands before the first one is its text. */
  predicate Terminated(b: seq<char>) { '\0' in b }

  function Sum(t: string): int {
    if t == [] then 0 else Sum(t[..|t| - 1]) + CharValue(t[|t| - 1])
  }

  /** The sums of two texts add up, and a single character is its own sum. */
  lemma {:induction false} SumOfTwo(s: string, t: string)
    ensures Sum(s + t) == Sum(s) + Sum(t) && forall c :: Sum([c]) == CharValue(c)
  {
    hide CharValue;
    forall c ensures Sum([c]) == CharValue(c) {
      assert [c][..0] == [];
    }
    if t == [] {
      assert s + t == s;
    } else {
      assert (s + t)[..|s + t| - 1] == s + t[..|t| - 1];
      SumOfTwo(s, t[..|t| - 1]);
    }
  }

  /** abs(a - b) */
  function Distance(a: int, b: int): (d: nat)
    ensures d == a - b || d == b - a
  {
    if a < b then b - a else a - b
  }

  /** The block for text s: s, filled up with zeros to length bl. */
  method NewBlock(s: string, bl: nat) returns (full: Block)
    requires |s| < bl && '\0' !in s
    ensures fresh(full) && full.Length == bl && full[..|s|] == s
    ensures forall i :: |s| <= i < bl ==> full[i] == '\0'
    ensures Terminated(full[..]) && StringIn(full[..]) == s
  {
    full := new char[bl](i requires 0 <= i < bl => if i < |s| then s[i] else '\0');
    assert full[|s|] == '\0' && full[|s|] in full[..];
    StringIs(full[..], s);
  }

  function Inserted<T>(blocks: seq<T>, n: nat, b: T): (r: seq<T>)
    requires n <= |blocks|
    ensures |r| == |blocks| + 1
  {
    blocks[..n] + [b] + blocks[n..]
  }

  function Removed<T>(blocks: seq<T>, n: nat): (r: seq<T>)
    requires n < |blocks|
    ensures |r| == |blocks| - 1
  {
    blocks[..n] + blocks[n + 1..]
  }

  /** realloc: the same pointers, as many as fit. */
  method Realloc(ar: array<Block>, size: nat, filler: Block) returns (r: array<Block>)
    ensures fresh(r) && r.Length == size
    ensures forall i :: 0 <= i < size ==> r[i] == if i < ar.Length then ar[i] else filler
  {
    r := new Block[size](i requires i >= 0 reads ar => if i < ar.Length then ar[i] else filler);
  }

  /** An index out of range or a text too long leaves the array alone; otherwise the new block
      comes to stand at n and every other one keeps its contents and its order. */
  method AddBlockDynamic(n: int, bl: nat, s: string, ar: array<Block>) returns (r: array<Block>)
    requires bl >= 1 && '\0' !in s
    ensures n < 0 || n >= ar.Length || |s| > bl - 1 ==> r == ar
    ensures 0 <= n < ar.Length && |s| <= bl - 1 ==>
              && fresh(r) && r.Length == ar.Length + 1
              && fresh(r[n]) && Terminated(r[n][..]) && StringIn(r[n][..]) == s && r[n].Length == bl
              && r[..] == Inserted(ar[..], n, r[n])
  {
    if n < 0 || n >= ar.Length { return ar; }
    if |s| > bl - 1 { return ar; }
    var full := NewBlock(s, bl);
    var al := ar.Length;
    r := Realloc(ar, al + 1, full);
    var pos := al;
    assert r[..] == Inserted(ar[..], pos, full);
    while pos != n
      modifies r
      invariant Terminated(full[..]) && StringIn(full[..]) == s
      invariant n <= pos <= al
      invariant r[..] == Inserted(ar[..], pos, full)
    {
      Neighbours(ar[..], pos, full);
      var tmp := r[pos - 1];
      r[pos - 1] := r[pos];
      r[pos] := tmp;
      pos := pos - 1;
    }
    assert r[..][n] == full;
  }

  lemma Neighbours<T>(blocks: seq<T>, pos: nat, b: T)
    requires 0 < pos <= |blocks|
    ensures var s := Inserted(blocks, pos, b);
            |s| == |blocks| + 1 && s[pos] == b && s[pos - 1 := b][pos := s[pos - 1]] == Inserted(blocks, pos - 1, b)
  {
    var s := Inserted(blocks, pos, b);
    assert s[pos - 1] == blocks[pos - 1];
    assert blocks[..pos] == blocks[..pos - 1] + [blocks[pos - 1]];
    assert blocks[pos - 1..] == [blocks[pos - 1]] + blocks[pos..];
  }

  /** The block at n goes to the end of the array by neighbour swaps. */
  method MoveToEnd(n: nat, ar: array<Block>)
    requires n < ar.Length
    modifies ar
    ensures ar[..] == Removed(old(ar[..]), n) + [old(ar[n])]
  {
    hide Inserted, Removed, NeighboursSwapped;
    var al := ar.Length;
    var pos := n;
    ghost var was, b := ar[..], ar[n];
    ghost var rest := Removed(was, n);
    assert was[n] == b;
    InsertedRemoved(was, n);
    while pos != al - 1
      invariant n <= pos <= al - 1 == |rest|
      invariant ar[..] == Inserted(rest, pos, b)
    {
      OneUp(ar[..], rest, pos, b);
      SwapUp(ar, pos);
      pos := pos + 1;
    }
    InsertedLast(rest, b);
  }

  /** The block at n leaves the array and is given back; all others keep their order. */
  method DeleteBlockDynamic(n: int, ar: array<Block>) returns (r: array<Block>, freed: Option<Block>)
    modifies ar
    ensures n < 0 || n >= ar.Length ==> r == ar && freed == None && ar[..] == old(ar[..])
    ensures 0 <= n < ar.Length ==>
              && fresh(r) && r[..] == Removed(old(ar[..]), n)
              && freed == Some(old(ar[n]))
  {
    if n < 0 || n >= ar.Length { return ar, None; }
    hide Removed;
    var al := ar.Length;
    MoveToEnd(n, ar);
    assert ar[al - 1] == ar[..][al - 1] && ar[..al - 1] == ar[..][..al - 1];
    freed := Some(ar[al - 1]);
    r := Realloc(ar, al - 1, ar[al - 1]);
    assert r[..] == ar[..al - 1];
  }

  lemma InsertedLast<T>(blocks: seq<T>, b: T)
    ensures Inserted(blocks, |blocks|, b) == blocks + [b]
  {
  }

  function NeighboursSwapped<T>(s: seq<T>, pos: nat): seq<T>
    requires pos + 1 < |s|
  {
    s[pos + 1 := s[pos]][pos := s[pos + 1]]
  }

  lemma OneUp<T>(s: seq<T>, rest: seq<T>, pos: nat, b: T)
    requires pos < |rest| && s == Inserted(rest, pos, b)
    ensures |s| == |rest| + 1 && NeighboursSwapped(s, pos) == Inserted(rest, pos + 1, b)
  {
    assert s[pos] == b && s[pos + 1] == rest[pos];
    assert rest[..pos + 1] == rest[..pos] + [rest[pos]];
  }

  /** The body of the loop: two neighbours change places. */
  method SwapUp(ar: array<Block>, pos: nat)
    requires pos + 1 < ar.Length
    modifies ar
    ensures ar.Length == |old(ar[..])| && ar[..] == NeighboursSwapped(old(ar[..]), pos)
  {
    var tmp := ar[pos + 1];
    ar[pos + 1] := ar[pos];
    ar[pos] := tmp;
  }

  /** Deleting at n what was added at n brings the original pointers back, and gives back
      exactly the block that was added. */
  method AddThenDelete(n: int, bl: nat, s: string, ar: array<Block>) returns (r: array<Block>)
    requires bl >= 1 && '\0' !in s && 0 <= n < ar.Length && |s| <= bl - 1
    ensures fresh(r) && r[..] == old(ar[..]) == ar[..]
  {
    var more := AddBlockDynamic(n, bl, s, ar);
    ghost var added := more[n];
    var freed;
    r, freed := DeleteBlockDynamic(n, more);
    assert freed == Some(added) && fresh(added);
    RemovedInserted(old(ar[..]), n, added);
  }

  lemma RemovedInserted<T>(blocks: seq<T>, n: nat, b: T)
    requires n <= |blocks|
    ensures Removed(Inserted(blocks, n, b), n) == blocks
  {
    assert Inserted(blocks, n, b)[..n] == blocks[..n];
    assert Inserted(blocks, n, b)[n + 1..] == blocks[n..];
  }

  lemma InsertedRemoved<T>(blocks: seq<T>, n: nat)
    requires n < |blocks|
    ensures Inserted(Removed(blocks, n), n, blocks[n]) == blocks
  {
    assert Removed(blocks, n)[..n] == blocks[..n];
    assert Removed(blocks, n)[n..] == blocks[n + 1..];
  }

  /** r is the first of the indices other than n whose sum is nearest to that of block n. */
  predicate FirstNearest(sums: seq<int>, n: nat, r: int)
    requires n < |sums|
  {
    && 0 <= r < |sums| && r != n
    && forall i :: 0 <= i < |sums| && i != n ==>
         && Distance(sums[r], sums[n]) <= Distance(sums[i], sums[n])
         && (i < r ==> Distance(sums[r], sums[n]) < Distance(sums[i], sums[n]))
  }

  /** Some other block is nearer to block n than an empty text would be. */
  predicate SomeNear(sums: seq<int>, n: nat)
    requires n < |sums|
  {
    exists i :: 0 <= i < |sums| && i != n && Distance(sums[i], sums[n]) < sums[n]
  }

  /** What the search returns. */
  predicate Found(sums: seq<int>, n: nat, r: int)
    requires n < |sums|
  {
    if SomeNear(sums, n) then FirstNearest(sums, n, r) else r == 0
  }

  ghost predicate AllTerminated(ar: array<Block>)
    reads ar, set i | 0 <= i < ar.Length :: ar[i]
  {
    forall i :: 0 <= i < ar.Length ==> Terminated(ar[i][..])
  }

  ghost function Sums(ar: array<Block>, n: nat): (sums: seq<int>)
    requires n <= ar.Length && AllTerminated(ar)
    reads ar, set i | 0 <= i < ar.Length :: ar[i]
    ensures |sums| == n && forall i :: 0 <= i < n ==> sums[i] == Sum(StringIn(ar[i][..]))
  {
    if n == 0 then [] else Sums(ar, n - 1) + [Sum(StringIn(ar[n - 1][..]))]
  }

  method NearestDynamicSum(n: int, ar: array<Block>) returns (r: int)
    requires AllTerminated(ar)
    ensures n < 0 || n >= ar.Length ==> r == -1
    ensures 0 <= n < ar.Length ==> Found(Sums(ar, ar.Length), n, r)
  {
    if n < 0 || n >= ar.Length { return -1; }
    r := Nearest(n, ar, Sums(ar, ar.Length));
  }

  method Nearest(n: nat, ar: array<Block>, ghost sums: seq<int>) returns (pos: int)
    requires AllTerminated(ar) && n < ar.Length == |sums|
    requires forall i :: 0 <= i < ar.Length ==> sums[i] == Sum(StringIn(ar[i][..]))
    ensures Found(sums, n, pos)
  {
    hide Found, Best, Distance, StringIn, Sum, Terminated;
    var sum := BlockSum(ar[n]);
    pos := 0;
    var sumdiff := sum;
    BestOfNone(sums, n);
    for i := 0 to ar.Length
      invariant Best(sums, n, i, pos, sumdiff)
    {
      var tmpsum := BlockSum(ar[i]);
      BestOfOneMore(sums, n, i, pos, sumdiff);
      if Distance(tmpsum, sum) < sumdiff && i != n {
        pos := i;
        sumdiff := Distance(tmpsum, sum);
      }
    }
    BestIsFound(sums, n, pos, sumdiff);
  }

  /** The loop's state after m blocks. */
  predicate Best(sums: seq<int>, n: nat, m: nat, pos: int, sumdiff: int)
    requires n < |sums| && m <= |sums|
  {
    && (forall i :: 0 <= i < m && i != n ==> sumdiff <= Distance(sums[i], sums[n]))
    && (forall i :: 0 <= i < m && i != n && i < pos ==> sumdiff < Distance(sums[i], sums[n]))
    && (|| (pos == 0 && sumdiff == sums[n])
        || (0 <= pos < m && pos != n && sumdiff == Distance(sums[pos], sums[n]) < sums[n]))
  }

  lemma BestOfNone(sums: seq<int>, n: nat)
    requires n < |sums|
    ensures Best(sums, n, 0, 0, sums[n])
  {
  }

  lemma BestOfOneMore(sums: seq<int>, n: nat, m: nat, pos: int, sumdiff: int)
    requires n < |sums| && m < |sums| && Best(sums, n, m, pos, sumdiff)
    ensures var d := Distance(sums[m], sums[n]);
            if d < sumdiff && m != n then Best(sums, n, m + 1, m, d) else Best(sums, n, m + 1, pos, sumdiff)
  {
  }

  lemma BestIsFound(sums: seq<int>, n: nat, pos: int, sumdiff: int)
    requires n < |sums| && Best(sums, n, |sums|, pos, sumdiff)
    ensures Found(sums, n, pos)
  {
  }

  /** The loop over one text. */
  method BlockSum(b: Block) returns (sum: int)
    requires Terminated(b[..])
    ensures sum == Sum(StringIn(b[..]))
  {
    sum := 0;
    var len := Strlen(b);
    for i := 0 to len
      invariant sum == Sum(StringIn(b[..])[..i])
    {
      assert StringIn(b[..])[..i + 1][..i] == StringIn(b[..])[..i];
      sum := sum + CharValue(b[i]);
    }
    assert StringIn(b[..])[..len] == StringIn(b[..]);
  }

  /** The search does not always return the nearest block: it does so exactly when some other
      block is nearer than an empty text would be, or the first nearest happens to be block 0. */
  lemma NearestIff(sums: seq<int>, n: nat, r: int)
    requires n < |sums| && Found(sums, n, r)
    ensures FirstNearest(sums, n, r) <==>
            SomeNear(sums, n) ||
            (n != 0 && forall i :: 0 <= i < |sums| && i != n ==> Distance(sums[0], sums[n]) <= Distance(sums[i], sums[n]))
  {
  }

  /** Asked for the block nearest to "d", the search misses "}}", whose sum is nearer, and
      returns "ddd". */
  method MissesNearest() returns (ar: array<Block>, r: int)
    ensures fresh(ar) && AllTerminated(ar) && ar.Length == 3
    ensures Sums(ar, 3) == [300, 100, 250]
    ensures r == 0 && !FirstNearest(Sums(ar, 3), 1, r) && FirstNearest(Sums(ar, 3), 1, 2)
  {
    hide StringIn, Sum, Found, FirstNearest;
    ar := ThreeBlocks("ddd", "d", "}}", 4);
    SumsOfThree();
    r := NearestDynamicSum(1, ar);
    ThreeDistances(r);
  }

  method ThreeBlocks(a: string, b: string, c: string, bl: nat) returns (ar: array<Block>)
    requires |a| < bl && |b| < bl && |c| < bl && '\0' !in a && '\0' !in b && '\0' !in c
    ensures fresh(ar) && AllTerminated(ar) && ar.Length == 3
    ensures Sums(ar, 3) == [Sum(a), Sum(b), Sum(c)]
  {
    hide Sum, StringIn, Terminated;
    var full0 := NewBlock(a, bl);
    var full1 := NewBlock(b, bl);
    var full2 := NewBlock(c, bl);
    ar := new Block[3](i => if i == 0 then full0 else if i == 1 then full1 else full2);
    assert AllTerminated(ar);
    hide Sums;
    assert |Sums(ar, 3)| == 3;
  }

  lemma ThreeDistances(r: int)
    requires Found([300, 100, 250], 1, r)
    ensures r == 0 && !FirstNearest([300, 100, 250], 1, r) && FirstNearest([300, 100, 250], 1, 2)
  {
    var sums := [300, 100, 250];
    assert Distance(sums[0], sums[1]) == 200 && Distance(sums[2], sums[1]) == 150;
  }

  lemma SumsOfThree()
    ensures Sum("ddd") == 300 && Sum("d") == 100 && Sum("}}") == 250
  {
    assert "ddd"[..2] == "dd" && "dd"[..1] == "d" && "d"[..0] == "" && "}}"[..1] == "}" && "}"[..0] == "";
  }
}
