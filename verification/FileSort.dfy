/** Insertion sort of the records of a file, in the file, through a cursor.  The branch on lseek,
    read and write and the branch on fseek, fread and fwrite make the same calls; a stream adds
    the rule that reading and writing must not follow one another without a seek between
    (section 7.21.5.3 of ISO C11), so the sort is proved against that rule. */
module FileSort {
  import opened Records

  function Available(data: seq<byte>, pos: nat, n: nat): seq<byte> {
    if pos >= |data| then []
    else if pos + n <= |data| then data[pos..pos + n]
    else data[pos..]
  }

  /** Bytes written over and past the end of the data; a gap reads as zeros. */
  function Written(data: seq<byte>, pos: nat, bytes: seq<byte>): seq<byte> {
    if bytes == [] then data
    else if pos + |bytes| <= |data| then Overwrite(data, pos, bytes)
    else if pos <= |data| then data[..pos] + bytes
    else data + seq(pos - |data|, _ => 0) + bytes
  }

  /** What a stream did last. */
  datatype LastCall = Sought | HasRead | HasWritten

  /** An open file: its bytes, its offset, and a record of every offset sought. */
  class File {
    const stream: bool
    var data: seq<byte>
    var pos: nat
    ghost var last: LastCall
    ghost var sought: seq<nat>

    constructor (data: seq<byte>, stream: bool)
      ensures this.data == data && this.stream == stream && pos == 0 && last == Sought && sought == []
    {
      this.data := data;
      this.stream := stream;
      pos := 0;
      last := Sought;
      sought := [];
    }

    /** lseek or fseek from the start; fails on a negative offset. */
    method SeekSet(offset: int) returns (ok: bool)
      modifies this
      ensures data == old(data) && ok == (offset >= 0)
      ensures ok ==> pos == offset && last == Sought && sought == old(sought) + [pos]
      ensures !ok ==> pos == old(pos) && last == old(last) && sought == old(sought)
    {
      ok := offset >= 0;
      if ok {
        pos := offset;
        last := Sought;
        sought := sought + [pos];
      }
    }

    /** lseek or fseek from where the cursor is. */
    method SeekCur(delta: int) returns (ok: bool)
      modifies this
      ensures data == old(data) && ok == (old(pos) + delta >= 0)
      ensures ok ==> pos == old(pos) + delta && last == Sought && sought == old(sought) + [pos]
      ensures !ok ==> pos == old(pos) && last == old(last) && sought == old(sought)
    {
      ok := SeekSet(pos + delta);
    }

    method Read(n: nat) returns (bytes: seq<byte>)
      requires stream ==> !last.HasWritten?
      modifies this`pos, this`last
      ensures bytes == Available(data, old(pos), n) && pos == old(pos) + |bytes| && last == HasRead
    {
      bytes := Available(data, pos, n);
      pos := pos + |bytes|;
      last := HasRead;
    }

    method Write(bytes: seq<byte>)
      requires stream ==> !last.HasRead?
      modifies this`data, this`pos, this`last
      ensures data == Written(old(data), old(pos), bytes) && pos == old(pos) + |bytes| && last == HasWritten
    {
      data := Written(data, pos, bytes);
      pos := pos + |bytes|;
      last := HasWritten;
    }
  }

  /** Every offset sought since `before` lies in the first `size` bytes. */
  ghost predicate SoughtWithin(before: seq<nat>, now: seq<nat>, size: nat) {
    && |before| <= |now| && now[..|before|] == before
    && forall t :: |before| <= t < |now| ==> now[t] < size
  }

  lemma SoughtOn(a: seq<nat>, b: seq<nat>, c: seq<nat>, size: nat)
    requires SoughtWithin(a, b, size) && SoughtWithin(b, c, size)
    ensures SoughtWithin(a, c, size)
  {
    assert c[..|a|] == c[..|b|][..|a|];
    forall t | |b| > t >= |a|
      ensures c[t] < size
    {
      assert c[t] == c[..|b|][t];
    }
  }

  /** Two records written one behind the other are one piece of data written at once. */
  lemma WrittenTwice(data: seq<byte>, at: nat, a: seq<byte>, b: seq<byte>)
    requires at + |a| + |b| <= |data| && |a| >= 1 && |b| >= 1
    ensures Written(Written(data, at, a), at + |a|, b) == Overwrite(data, at, a + b)
  {
  }

  ghost predicate SameTail(data: seq<byte>, data0: seq<byte>, size: nat)
    requires size <= |data0|
  {
    |data| == |data0| && data[size..] == data0[size..]
  }

  /** Cursor at record q - 1: exchange records q - 1 and q. */
  method SwapRecords(f: File, j: nat, SoR: nat, ghost n: nat, ghost q: nat)
    requires 1 <= q < n && SoR >= 1 && Offset(n, SoR) <= |f.data|
    requires j == Offset(q, SoR) && f.pos == Offset(q - 1, SoR) && f.last.Sought?
    modifies f
    ensures |f.data| == |old(f.data)| && SameTail(f.data, old(f.data), Offset(n, SoR))
    ensures RecordsOf(f.data, n, SoR) == Swap(RecordsOf(old(f.data), n, SoR), q)
    ensures SoughtWithin(old(f.sought), f.sought, Offset(n, SoR))
  {
    hide Offset;
    OverwriteSwaps(f.data, n, SoR, q);
    RecordFits(f.data, n, SoR, q - 1);
    ghost var data := f.data;
    var B := f.Read(SoR);
    var A := f.Read(SoR);
    var ok := f.SeekSet(j - SoR);
    assert A == RecordAt(data, SoR, q) && B == RecordAt(data, SoR, q - 1);
    WrittenTwice(data, Offset(q - 1, SoR), A, B);
    f.Write(A);
    f.Write(B);
    hide Written, Overwrite, RecordsOf, Swap;
  }

  /** The file part way through an insertion: record x stands at q among the sorted ones. */
  ghost function Inserting(sorted: seq<Rec>, q: nat, x: Rec, rest: seq<Rec>): seq<Rec>
    requires q <= |sorted|
  {
    InsertAt(sorted, q, x) + rest
  }

  lemma SwapMovesDown(sorted: seq<Rec>, q: nat, x: Rec, rest: seq<Rec>)
    requires 1 <= q <= |sorted|
    ensures |Inserting(sorted, q, x, rest)| == |sorted| + 1 + |rest|
    ensures Swap(Inserting(sorted, q, x, rest), q) == Inserting(sorted, q - 1, x, rest)
    ensures q >= 2 ==> Inserting(sorted, q - 1, x, rest)[q - 2] == sorted[q - 2]
  {
  }

  /** The first byte of record t. */
  method FirstByteOf(f: File, offset: nat, ghost n: nat, SoR: nat, ghost t: nat, ghost s0: seq<nat>) returns (b: byte)
    requires SoughtWithin(s0, f.sought, Offset(n, SoR))
    requires t < n && SoR >= 1 && Offset(n, SoR) <= |f.data| && offset == Offset(t, SoR)
    modifies f
    ensures f.data == old(f.data) && f.pos == offset + 1 && offset < Offset(n, SoR)
    ensures Signed(b) == Key(RecordsOf(f.data, n, SoR)[t])
    ensures SoughtWithin(s0, f.sought, Offset(n, SoR))
  {
    hide Offset;
    RecordFits(f.data, n, SoR, t);
    var ok := f.SeekSet(offset);
    var buffer := f.Read(1);
    b := buffer[0];
  }

  /** The same, leaving the cursor where the record starts. */
  method PeekFirst(f: File, offset: nat, ghost n: nat, SoR: nat, ghost t: nat, ghost s0: seq<nat>) returns (b: byte)
    requires SoughtWithin(s0, f.sought, Offset(n, SoR))
    requires t < n && SoR >= 1 && Offset(n, SoR) <= |f.data| && offset == Offset(t, SoR)
    modifies f
    ensures f.data == old(f.data) && f.pos == offset && f.last.Sought?
    ensures Signed(b) == Key(RecordsOf(f.data, n, SoR)[t])
    ensures SoughtWithin(s0, f.sought, Offset(n, SoR))
  {
    hide Offset;
    b := FirstByteOf(f, offset, n, SoR, t, s0);
    var ok := f.SeekCur(-1);
  }

  /** The file while record x goes down: it stands at q, and those above it are greater. */
  ghost predicate Going(data: seq<byte>, data0: seq<byte>, n: nat, k: nat, sorted: seq<Rec>, q: nat, x: Rec, rest: seq<Rec>) {
    && Offset(n, k) <= |data0| && SameTail(data, data0, Offset(n, k))
    && q <= |sorted| && |sorted| + 1 + |rest| == n
    && RecordsOf(data, n, k) == Inserting(sorted, q, x, rest)
    && forall t :: q <= t < |sorted| ==> Key(x) < Key(sorted[t])
  }

  lemma GoingStarts(data: seq<byte>, n: nat, k: nat, m: nat)
    requires m < n && Offset(n, k) <= |data|
    ensures var rs := RecordsOf(data, n, k); Going(data, data, n, k, rs[..m], m, rs[m], rs[m + 1..])
  {
  }

  lemma GoingFirst(data: seq<byte>, n: nat, k: nat, sorted: seq<Rec>, x: Rec, rest: seq<Rec>)
    requires Going(data, data, n, k, sorted, |sorted|, x, rest)
    ensures |sorted| < n && Offset(n, k) <= |data|
    ensures RecordsOf(data, n, k)[|sorted|] == x
    ensures |sorted| > 0 ==> RecordsOf(data, n, k)[|sorted| - 1] == sorted[|sorted| - 1]
  {
  }

  lemma GoingDown(data: seq<byte>, data0: seq<byte>, n: nat, k: nat, sorted: seq<Rec>, q: nat, x: Rec, rest: seq<Rec>, data': seq<byte>)
    requires Going(data, data0, n, k, sorted, q, x, rest) && 1 <= q && Key(x) < Key(sorted[q - 1])
    requires SameTail(data', data, Offset(n, k)) && RecordsOf(data', n, k) == Swap(RecordsOf(data, n, k), q)
    ensures Going(data', data0, n, k, sorted, q - 1, x, rest)
    ensures q >= 2 ==> RecordsOf(data', n, k)[q - 2] == sorted[q - 2]
  {
    SwapMovesDown(sorted, q, x, rest);
  }

  /** Record x goes down by one. */
  method MoveDown(f: File, j: nat, SoR: nat, ghost d0: seq<byte>, ghost s0: seq<nat>, ghost n: nat,
                  ghost sorted: seq<Rec>, ghost q: nat, ghost x: Rec, ghost rest: seq<Rec>)
    requires Going(f.data, d0, n, SoR, sorted, q, x, rest) && 1 <= q && Key(x) < Key(sorted[q - 1])
    requires |f.data| == |d0| && SoR >= 1 && j == Offset(q, SoR) && f.pos == Offset(q - 1, SoR) && f.last.Sought?
    requires SoughtWithin(s0, f.sought, Offset(n, SoR))
    modifies f
    ensures |f.data| == |d0| && Going(f.data, d0, n, SoR, sorted, q - 1, x, rest)
    ensures q >= 2 ==> RecordsOf(f.data, n, SoR)[q - 2] == sorted[q - 2]
    ensures SoughtWithin(s0, f.sought, Offset(n, SoR))
  {
    hide Offset;
    ghost var d1, s1 := f.data, f.sought;
    SwapRecords(f, j, SoR, n, q);
    GoingDown(d1, d0, n, SoR, sorted, q, x, rest, f.data);
    SoughtOn(s0, s1, f.sought, Offset(n, SoR));
    hide RecordsOf, Inserting, SoughtWithin, Swap;
  }

  /** One round of the outer loop: record x, at i, goes down to its place q among the sorted ones. */
  method InsertRecord(f: File, i: nat, SoR: nat, ghost n: nat, ghost sorted: seq<Rec>, ghost x: Rec, ghost rest: seq<Rec>)
    returns (ghost q: nat)
    requires 1 <= |sorted| && SoR >= 1 && i == Offset(|sorted|, SoR)
    requires Going(f.data, f.data, n, SoR, sorted, |sorted|, x, rest)
    modifies f
    ensures Going(f.data, old(f.data), n, SoR, sorted, q, x, rest)
    ensures q > 0 ==> Key(sorted[q - 1]) <= Key(x)
    ensures SoughtWithin(old(f.sought), f.sought, Offset(n, SoR))
  {
    ghost var d0, s0, m := f.data, f.sought, |sorted|;
    GoingFirst(d0, n, SoR, sorted, x, rest);
    assert SoughtWithin(s0, s0, Offset(n, SoR));
    OffsetNext(m - 1, SoR);
    hide Offset, RecordsOf, Inserting, Swap, Going, SameTail, Key, Signed, SoughtWithin;
    q := m;
    var j := i;
    var a := FirstByteOf(f, j, n, SoR, m, s0);
    var b := PeekFirst(f, j - SoR, n, SoR, m - 1, s0);
    while Signed(a) < Signed(b) && j >= 2 * SoR
      invariant 1 <= q <= m && j == Offset(q, SoR) && f.pos == j - SoR == Offset(q - 1, SoR) && f.last.Sought?
      invariant |f.data| == |d0| && Going(f.data, d0, n, SoR, sorted, q, x, rest)
      invariant Signed(a) == Key(x) && Signed(b) == Key(sorted[q - 1])
      invariant SoughtWithin(s0, f.sought, Offset(n, SoR))
      decreases q
    {
      OffsetFromTwo(q, SoR);
      MoveDown(f, j, SoR, d0, s0, n, sorted, q, x, rest);
      j := j - SoR;
      q := q - 1;
      b := PeekFirst(f, j - SoR, n, SoR, q - 1, s0);
    }
    OffsetFromTwo(q, SoR);
    if Signed(a) < Signed(b) {
      MoveDown(f, j, SoR, d0, s0, n, sorted, q, x, rest);
      q := q - 1;
    }
  }

  lemma OffsetOne(k: nat)
    ensures Offset(1, k) == k
  {
  }

  /** A single record is sorted, and so are any number of empty ones. */
  lemma TriviallySorted(rs: seq<Rec>)
    requires |rs| <= 1 || forall t :: 0 <= t < |rs| ==> rs[t] == []
    ensures IsStableSort(rs, rs)
  {
  }

  lemma NextRound(data: seq<byte>, data0: seq<byte>, rs0: seq<Rec>, n: nat, k: nat, m: nat, q: nat)
    requires m < n == |rs0| && Offset(n, k) <= |data0| && q <= m
    requires var rs := RecordsOf(data0, n, k);
             && IsStableSort(rs[..m], rs0[..m]) && rs[m..] == rs0[m..]
             && Going(data, data0, n, k, rs[..m], q, rs[m], rs[m + 1..])
             && (q > 0 ==> Key(rs[q - 1]) <= Key(rs[m]))
    ensures SameTail(data, data0, Offset(n, k))
    ensures var rs := RecordsOf(data, n, k); IsStableSort(rs[..m + 1], rs0[..m + 1]) && rs[m + 1..] == rs0[m + 1..]
  {
    var rs, rs' := RecordsOf(data0, n, k), RecordsOf(data, n, k);
    hide IsStableSort, Offset;
    InsertedIsStable(rs[..m], rs0[..m], rs[m], q);
    assert rs'[..m + 1] == InsertAt(rs[..m], q, rs[m]);
    assert rs[m] == rs[m..][0] == rs0[m];
    assert rs0[..m] + [rs[m]] == rs0[..m + 1];
    assert rs'[m + 1..] == rs[m + 1..] == rs[m..][1..];
  }

  /** When the outer loop ends every record has had its round. */
  lemma AllRounds(data: seq<byte>, data0: seq<byte>, m: nat, n: nat, k: nat)
    requires Offset(m, k) >= Offset(n, k) && (1 <= m <= n || m == 1) && (m == 1 ==> data == data0) && (k == 0 ==> m == 1)
    requires m <= n ==> IsStableSort(RecordsOf(data, n, k)[..m], RecordsOf(data0, n, k)[..m])
    ensures IsStableSort(RecordsOf(data, n, k), RecordsOf(data0, n, k))
  {
    if m < n {
      if k >= 1 {
        OffsetIn(m, n, k);
      }
      TriviallySorted(RecordsOf(data0, n, k));
    } else if m == n {
      assert RecordsOf(data, n, k)[..m] == RecordsOf(data, n, k);
      assert RecordsOf(data0, n, k)[..m] == RecordsOf(data0, n, k);
    } else {
      TriviallySorted(RecordsOf(data0, n, k));
    }
  }

  /** What the sort leaves in the file: the records in the first n * k bytes stably sorted by
      their first byte, and every later byte as it was. */
  ghost predicate SortedFile(data: seq<byte>, data0: seq<byte>, n: nat, k: nat)
    requires n * k <= |data0|
  {
    SameTail(data, data0, n * k) && IsStableSort(RecordsOf(data, n, k), RecordsOf(data0, n, k))
  }

  /** The sort branches of main, with NoR records of size SoR.  No seek leaves the records. */
  method Sort(f: File, NoR: nat, SoR: nat)
    requires NoR * SoR <= |f.data|
    modifies f
    ensures SortedFile(f.data, old(f.data), NoR, SoR)
    ensures SoughtWithin(old(f.sought), f.sought, NoR * SoR)
  {
    ghost var rs0, s0 := RecordsOf(f.data, NoR, SoR), f.sought;
    ghost var m: nat := 1;
    var i := SoR;
    OffsetOne(SoR);
    if NoR >= 1 {
      TriviallySorted(rs0[..1]);
    }
    assert NoR * SoR == Offset(NoR, SoR);
    hide Offset, IsStableSort, Going, SoughtWithin;
    while i < NoR * SoR
      invariant i == Offset(m, SoR) && (1 <= m <= NoR || m == 1) && (m == 1 ==> f.data == old(f.data)) && (SoR == 0 ==> m == 1)
      invariant SameTail(f.data, old(f.data), Offset(NoR, SoR))
      invariant m <= NoR ==> IsStableSort(RecordsOf(f.data, NoR, SoR)[..m], rs0[..m])
      invariant m <= NoR ==> RecordsOf(f.data, NoR, SoR)[m..] == rs0[m..]
      invariant SoughtWithin(s0, f.sought, Offset(NoR, SoR))
      decreases NoR * SoR - i
    {
      OffsetBelow(m, NoR, SoR);
      ghost var d1, s1 := f.data, f.sought;
      ghost var rs := RecordsOf(d1, NoR, SoR);
      GoingStarts(d1, NoR, SoR, m);
      ghost var q := InsertRecord(f, i, SoR, NoR, rs[..m], rs[m], rs[m + 1..]);
      NextRound(f.data, d1, rs0, NoR, SoR, m, q);
      SoughtOn(s0, s1, f.sought, Offset(NoR, SoR));
      OffsetNext(m, SoR);
      i := i + SoR;
      m := m + 1;
    }
    AllRounds(f.data, old(f.data), m, NoR, SoR);
  }

  lemma {:induction false} RecordsFixData(d1: seq<byte>, d2: seq<byte>, n: nat, k: nat)
    requires |d1| == |d2| && Offset(n, k) <= |d1|
    requires RecordsOf(d1, n, k) == RecordsOf(d2, n, k)
    ensures d1[..Offset(n, k)] == d2[..Offset(n, k)]
  {
    if n > 0 {
      OffsetNext(n - 1, k);
      hide Offset;
      forall t | 0 <= t < n - 1
        ensures RecordAt(d1, k, t) == RecordAt(d2, k, t)
      {
        assert RecordsOf(d1, n, k)[t] == RecordsOf(d2, n, k)[t];
      }
      RecordsFixData(d1, d2, n - 1, k);
      var o := Offset(n - 1, k);
      assert RecordsOf(d1, n, k)[n - 1] == RecordsOf(d2, n, k)[n - 1];
      assert d1[..o + k] == d1[..o] + d1[o..o + k] && d2[..o + k] == d2[..o] + d2[o..o + k];
    }
  }

  /** There is one way to sort a file, so the two branches leave the same bytes. */
  lemma BranchesAgree(d1: seq<byte>, d2: seq<byte>, data0: seq<byte>, n: nat, k: nat)
    requires n * k <= |data0| && SortedFile(d1, data0, n, k) && SortedFile(d2, data0, n, k)
    ensures d1 == d2
  {
    assert n * k == Offset(n, k);
    StableSortUnique(RecordsOf(d1, n, k), RecordsOf(d2, n, k)) by {
      forall v
        ensures OfKey(RecordsOf(d1, n, k), v) == OfKey(RecordsOf(d2, n, k), v)
      {
        assert OfKey(RecordsOf(d1, n, k), v) == OfKey(RecordsOf(data0, n, k), v);
        assert OfKey(RecordsOf(d2, n, k), v) == OfKey(RecordsOf(data0, n, k), v);
      }
    }
    RecordsFixData(d1, d2, n, k);
    assert d1 == d1[..n * k] + d1[n * k..] && d2 == d2[..n * k] + d2[n * k..];
  }

  /** The order of the first bytes: those from 128 up are negative, and come first. */
  predicate InOrder(a: byte, b: byte) {
    if a < 128 then a <= b < 128 else b < 128 || a <= b
  }

  /** What that means of the bytes: each record's first byte stands in order to the next one's;
      the records are those of the original file, whole and each as often; and nothing behind
      them has changed. */
  lemma SortedBytes(data: seq<byte>, data0: seq<byte>, n: nat, k: nat)
    requires n * k <= |data0| && k >= 1 && SortedFile(data, data0, n, k)
    ensures |data| == |data0| && data[n * k..] == data0[n * k..]
    ensures forall t :: 0 < t < n ==>
              Offset(t, k) < |data| && InOrder(data[Offset(t - 1, k)], data[Offset(t, k)])
    ensures multiset(RecordsOf(data, n, k)) == multiset(RecordsOf(data0, n, k))
    ensures forall t :: 0 <= t < n ==>
              Offset(t, k) + k <= |data| && RecordsOf(data, n, k)[t] == data[Offset(t, k)..Offset(t, k) + k]
  {
    assert n * k == Offset(n, k);
    hide Offset;
    StableSortPermutes(RecordsOf(data, n, k), RecordsOf(data0, n, k));
    forall t | 0 <= t < n
      ensures Offset(t, k) + k <= |data| && RecordsOf(data, n, k)[t] == data[Offset(t, k)..Offset(t, k) + k]
    {
      OffsetNext(t, k);
      OffsetMono(t + 1, n, k);
    }
    forall t | 0 < t < n
      ensures Offset(t, k) < |data| && InOrder(data[Offset(t - 1, k)], data[Offset(t, k)])
    {
      var rs := RecordsOf(data, n, k);
      OffsetNext(t - 1, k);
      assert Key(rs[t - 1]) <= Key(rs[t]);
      assert rs[t - 1][0] == data[Offset(t - 1, k)] && rs[t][0] == data[Offset(t, k)];
    }
  }

  /** The sort on a file of two records, "b " and "a ". */
  method TwoRecords() returns (f: File)
    ensures f.data == [97, 32, 98, 32]
  {
    f := new File([98, 32, 97, 32], false);
    Sort(f, 2, 2);
    TwoRecordsSorted(f.data);
  }

  lemma TwoRecordsSorted(data: seq<byte>)
    requires SortedFile(data, [98, 32, 97, 32], 2, 2)
    ensures data == [97, 32, 98, 32]
  {
    var b: seq<byte>, a: seq<byte> := [98, 32], [97, 32];
    assert [98, 32, 97, 32] == b + a && [97, 32, 98, 32] == a + b;
    RecordsOfTwo(b, a);
    RecordsOfTwo(a, b);
    TwoKeys(a, b);
    hide Key, OfKey;
    assert SortedFile(a + b, b + a, 2, 2);
    BranchesAgree(data, a + b, b + a, 2, 2);
  }

  lemma RecordsOfTwo(a: Rec, b: Rec)
    requires |a| == |b| == 2
    ensures RecordsOf(a + b, 2, 2) == [a, b]
  {
    var d := a + b;
    assert Offset(0, 2) == 0 && Offset(1, 2) == 2;
    assert d[0..2] == a && d[2..4] == b;
    assert RecordAt(d, 2, 0) == a && RecordAt(d, 2, 1) == b;
  }

  lemma TwoKeys(a: Rec, b: Rec)
    requires Key(a) < Key(b)
    ensures IsStableSort([a, b], [b, a])
  {
    forall v ensures OfKey([b, a], v) == OfKey([a, b], v) {
      assert [b, a][..1] == [b] && [a, b][..1] == [a];
      OfKeyOne(a, v);
      OfKeyOne(b, v);
    }
  }
}
