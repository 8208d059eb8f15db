/** Fixed-size records laid end to end in a sequence of bytes, and their stable sort by the
    first byte read as a signed char. */
module Records {
  newtype byte = x: int | 0 <= x < 256

  type Rec = seq<byte>

  /** A C char, where char is signed. */
  function Signed(b: byte): (v: int)
    ensures -128 <= v < 128 && (v - b as int) % 256 == 0
  {
    if b < 128 then b as int else b as int - 256
  }

  function Key(r: Rec): (v: int)
    ensures r != [] ==> -128 <= v < 128 && (v - r[0] as int) % 256 == 0
  {
    if r == [] then 0 else Signed(r[0])
  }

  // ---------- the stable sort, by what it is ----------

  predicate SortedByKey(rs: seq<Rec>) {
    forall i, j :: 0 <= i < j < |rs| ==> Key(rs[i]) <= Key(rs[j])
  }

  /** The records with key v, in the order they stand. */
  function OfKey(rs: seq<Rec>, v: int): seq<Rec> {
    if rs == [] then []
    else OfKey(rs[..|rs| - 1], v) + if Key(rs[|rs| - 1]) == v then [rs[|rs| - 1]] else []
  }

  /** out is sorted, and holds the records of each key as they stood in `in'`. */
  ghost predicate IsStableSort(out: seq<Rec>, in': seq<Rec>) {
    SortedByKey(out) && forall v :: OfKey(out, v) == OfKey(in', v)
  }

  lemma {:induction false} OfKeyConcat(a: seq<Rec>, b: seq<Rec>, v: int)
    ensures OfKey(a + b, v) == OfKey(a, v) + OfKey(b, v)
    decreases |b|
  {
    if b == [] {
      assert a + b == a;
    } else {
      assert (a + b)[..|a + b| - 1] == a + b[..|b| - 1];
      OfKeyConcat(a, b[..|b| - 1], v);
    }
  }

  lemma {:induction false} OfKeyFrom(rs: seq<Rec>, v: int)
    ensures forall r :: r in OfKey(rs, v) ==> Key(r) == v && r in rs
    ensures OfKey(rs, v) == [] <==> forall r :: r in rs ==> Key(r) != v
  {
    if rs != [] {
      OfKeyFrom(rs[..|rs| - 1], v);
      assert rs == rs[..|rs| - 1] + [rs[|rs| - 1]];
    }
  }

  lemma LastKeys(xs: seq<Rec>, ys: seq<Rec>)
    requires xs != [] && ys != [] && SortedByKey(xs)
    requires forall v :: OfKey(xs, v) == OfKey(ys, v)
    ensures Key(ys[|ys| - 1]) <= Key(xs[|xs| - 1])
  {
    var y := ys[|ys| - 1];
    OfKeyFrom(ys, Key(y));
    OfKeyFrom(xs, Key(y));
    assert y in ys;
    assert OfKey(xs, Key(y)) == OfKey(ys, Key(y));
    var r :| r in xs && Key(r) == Key(y);
  }

  lemma OfKeyLast(rs: seq<Rec>, v: int)
    requires rs != []
    ensures OfKey(rs, v) == OfKey(rs[..|rs| - 1], v) + if Key(rs[|rs| - 1]) == v then [rs[|rs| - 1]] else []
  {
  }

  lemma OfKeyOne(x: Rec, v: int)
    ensures OfKey([x], v) == if Key(x) == v then [x] else []
  {
  }

  lemma AppendInjective<T>(a: seq<T>, b: seq<T>, x: T, y: T)
    requires a + [x] == b + [y]
    ensures a == b && x == y
  {
    assert |a| == |b|;
    assert (a + [x])[..|a|] == a && (b + [y])[..|a|] == b;
    assert (a + [x])[|a|] == x && (b + [y])[|a|] == y;
  }

  lemma DropLast(xs: seq<Rec>, ys: seq<Rec>, v: int)
    requires xs != [] && ys != [] && Key(xs[|xs| - 1]) == Key(ys[|ys| - 1])
    requires OfKey(xs, v) == OfKey(ys, v)
    ensures OfKey(xs[..|xs| - 1], v) == OfKey(ys[..|ys| - 1], v)
    ensures v == Key(xs[|xs| - 1]) ==> xs[|xs| - 1] == ys[|ys| - 1]
  {
    OfKeyLast(xs, v);
    OfKeyLast(ys, v);
    hide OfKey, Key;
    var x, y := xs[|xs| - 1], ys[|ys| - 1];
    var a, b := OfKey(xs[..|xs| - 1], v), OfKey(ys[..|ys| - 1], v);
    if v == Key(x) {
      AppendInjective(a, b, x, y);
    } else {
      assert a + [] == a && b + [] == b;
    }
  }

  /** There is only one stable sort. */
  lemma {:induction false} StableSortUnique(xs: seq<Rec>, ys: seq<Rec>)
    requires SortedByKey(xs) && SortedByKey(ys)
    requires forall v :: OfKey(xs, v) == OfKey(ys, v)
    ensures xs == ys
    decreases |xs|
  {
    if xs == [] || ys == [] {
      forall v
        ensures OfKey(xs, v) == [] && OfKey(ys, v) == []
      {
        assert OfKey(xs, v) == OfKey(ys, v);
      }
      if xs != [] {
        OfKeyFrom(xs, Key(xs[0]));
      }
      if ys != [] {
        OfKeyFrom(ys, Key(ys[0]));
      }
    } else {
      LastKeys(xs, ys);
      LastKeys(ys, xs);
      var xs', ys' := xs[..|xs| - 1], ys[..|ys| - 1];
      DropLast(xs, ys, Key(xs[|xs| - 1]));
      forall v
        ensures OfKey(xs', v) == OfKey(ys', v)
      {
        assert OfKey(xs, v) == OfKey(ys, v);
        DropLast(xs, ys, v);
      }
      StableSortUnique(xs', ys');
      assert xs == xs' + [xs[|xs| - 1]] && ys == ys' + [ys[|ys| - 1]];
    }
  }

  /** A stable sort is a permutation of whole records. */
  lemma {:induction false} StableSortPermutes(out: seq<Rec>, in': seq<Rec>)
    requires IsStableSort(out, in')
    ensures multiset(out) == multiset(in')
  {
    forall r
      ensures multiset(out)[r] == multiset(in')[r]
    {
      CountOfKey(out, r);
      CountOfKey(in', r);
    }
  }

  lemma {:induction false} CountOfKey(rs: seq<Rec>, r: Rec)
    ensures multiset(rs)[r] == multiset(OfKey(rs, Key(r)))[r]
  {
    if rs != [] {
      var front, last := rs[..|rs| - 1], rs[|rs| - 1];
      CountOfKey(front, r);
      OfKeyLast(rs, Key(r));
      hide OfKey;
      assert rs == front + [last];
      assert multiset(rs)[r] == multiset(front)[r] + if last == r then 1 else 0;
    }
  }

  function InsertAt(rs: seq<Rec>, q: nat, x: Rec): seq<Rec>
    requires q <= |rs|
  {
    rs[..q] + [x] + rs[q..]
  }

  lemma InsertedOfKey(sorted: seq<Rec>, x: Rec, q: nat, v: int)
    requires q <= |sorted|
    requires forall t :: q <= t < |sorted| ==> Key(x) < Key(sorted[t])
    ensures OfKey(InsertAt(sorted, q, x), v) == OfKey(sorted, v) + OfKey([x], v)
  {
    var a, b := sorted[..q], sorted[q..];
    hide OfKey;
    OfKeyConcat(a + [x], b, v);
    OfKeyConcat(a, [x], v);
    OfKeyConcat(a, b, v);
    assert a + b == sorted;
    OfKeyOne(x, v);
    if v == Key(x) {
      OfKeyFrom(b, v);
      assert forall r :: r in b ==> Key(x) < Key(r);
      assert OfKey(b, v) == [];
    }
    SwapEmpty(OfKey(a, v), OfKey([x], v), OfKey(b, v));
  }

  lemma SwapEmpty<T>(a: seq<T>, x: seq<T>, b: seq<T>)
    requires x == [] || b == []
    ensures (a + x) + b == (a + b) + x
  {
  }

  /** Putting a record behind the last one whose key is not greater extends a stable sort. */
  lemma InsertedIsStable(sorted: seq<Rec>, in': seq<Rec>, x: Rec, q: nat)
    requires IsStableSort(sorted, in') && q <= |sorted|
    requires forall t :: q <= t < |sorted| ==> Key(x) < Key(sorted[t])
    requires q > 0 ==> Key(sorted[q - 1]) <= Key(x)
    ensures IsStableSort(InsertAt(sorted, q, x), in' + [x])
  {
    var out := InsertAt(sorted, q, x);
    forall v
      ensures OfKey(out, v) == OfKey(in' + [x], v)
    {
      InsertedOfKey(sorted, x, q, v);
      OfKeyConcat(in', [x], v);
    }
    hide OfKey;
  }

  // ---------- records in bytes ----------

  /** Where record t of size k starts. */
  function Offset(t: nat, k: nat): nat { t * k }

  lemma OffsetNext(t: nat, k: nat)
    ensures Offset(t + 1, k) == Offset(t, k) + k
  {
  }

  lemma {:induction false} OffsetMono(a: nat, b: nat, k: nat)
    requires a <= b
    ensures Offset(a, k) <= Offset(b, k)
    decreases b
  {
    hide Offset;
    if a < b {
      OffsetMono(a, b - 1, k);
      OffsetNext(b - 1, k);
    }
  }

  lemma OffsetIn(t: nat, n: nat, k: nat)
    requires t < n && k >= 1
    ensures Offset(t, k) < Offset(n, k)
  {
    OffsetNext(t, k);
    OffsetMono(t + 1, n, k);
    hide Offset;
  }

  lemma OffsetBelow(m: nat, n: nat, k: nat)
    requires Offset(m, k) < Offset(n, k)
    ensures m < n && k >= 1
  {
    if n <= m {
      OffsetMono(n, m, k);
    }
  }

  /** j >= 2 * SoR tells whether there is a record below the one before. */
  lemma OffsetFromTwo(q: nat, k: nat)
    requires k >= 1 && q >= 1
    ensures Offset(q, k) >= 2 * k <==> q >= 2
    ensures q >= 2 ==> Offset(q - 1, k) - k == Offset(q - 2, k)
  {
    if q >= 2 {
      OffsetMono(2, q, k);
      OffsetNext(q - 2, k);
    }
  }

  function RecordAt(data: seq<byte>, k: nat, t: nat): Rec {
    if Offset(t, k) + k <= |data| then data[Offset(t, k)..Offset(t, k) + k] else []
  }

  /** The first n records of size k. */
  function RecordsOf(data: seq<byte>, n: nat, k: nat): seq<Rec> {
    seq(n, t requires 0 <= t < n => RecordAt(data, k, t))
  }

  function Overwrite(data: seq<byte>, at: nat, bytes: seq<byte>): seq<byte>
    requires at + |bytes| <= |data|
  {
    data[..at] + bytes + data[at + |bytes|..]
  }

  /** Exchange records q - 1 and q. */
  function Swap(rs: seq<Rec>, q: nat): seq<Rec>
    requires 1 <= q < |rs|
  {
    rs[q - 1 := rs[q]][q := rs[q - 1]]
  }

  lemma OverwriteElsewhere(data: seq<byte>, at: nat, bytes: seq<byte>, p: nat, k: nat)
    requires at + |bytes| <= |data| && p + k <= |data|
    requires p + k <= at || at + |bytes| <= p
    ensures Overwrite(data, at, bytes)[p..p + k] == data[p..p + k]
  {
  }

  lemma OverwriteInside(data: seq<byte>, at: nat, a: seq<byte>, b: seq<byte>)
    requires at + |a| + |b| <= |data|
    ensures |Overwrite(data, at, a + b)| == |data|
    ensures Overwrite(data, at, a + b)[at..at + |a|] == a
    ensures Overwrite(data, at, a + b)[at + |a|..at + |a| + |b|] == b
  {
  }

  lemma RecordFits(data: seq<byte>, n: nat, k: nat, t: nat)
    requires t < n && Offset(n, k) <= |data|
    ensures Offset(t, k) + k <= Offset(n, k) && |RecordAt(data, k, t)| == k
  {
    OffsetNext(t, k);
    OffsetMono(t + 1, n, k);
    hide Offset;
  }

  lemma FarRecord(data: seq<byte>, at: nat, bytes: seq<byte>, k: nat, t: nat)
    requires at + |bytes| <= |data| && Offset(t, k) + k <= |data|
    requires Offset(t, k) + k <= at || at + |bytes| <= Offset(t, k)
    ensures RecordAt(Overwrite(data, at, bytes), k, t) == RecordAt(data, k, t)
  {
    hide Offset;
    OverwriteElsewhere(data, at, bytes, Offset(t, k), k);
  }

  lemma NearRecords(data: seq<byte>, a: Rec, b: Rec, k: nat, q: nat)
    requires q >= 1 && Offset(q - 1, k) + k == Offset(q, k) && Offset(q, k) + k <= |data|
    requires |a| == k && |b| == k
    ensures RecordAt(Overwrite(data, Offset(q - 1, k), a + b), k, q - 1) == a
    ensures RecordAt(Overwrite(data, Offset(q - 1, k), a + b), k, q) == b
  {
    hide Offset;
    OverwriteInside(data, Offset(q - 1, k), a, b);
    hide Overwrite;
  }

  /** What stands in record t after a and b went where records q - 1 and q were. */
  lemma SwappedRecord(data: seq<byte>, a: Rec, b: Rec, n: nat, k: nat, q: nat, t: nat)
    requires 1 <= q < n && Offset(n, k) <= |data| && t < n && |a| == k && |b| == k
    requires Offset(q - 1, k) + k == Offset(q, k) && Offset(q, k) + k == Offset(q + 1, k) && Offset(q + 1, k) <= |data|
    ensures RecordAt(Overwrite(data, Offset(q - 1, k), a + b), k, t)
         == if t == q - 1 then a else if t == q then b else RecordAt(data, k, t)
  {
    hide Offset, RecordAt, Overwrite;
    NearRecords(data, a, b, k, q);
    RecordFits(data, n, k, t);
    if t < q - 1 {
      OffsetNext(t, k);
      OffsetMono(t + 1, q - 1, k);
      FarRecord(data, Offset(q - 1, k), a + b, k, t);
    } else if t > q {
      OffsetMono(q + 1, t, k);
      FarRecord(data, Offset(q - 1, k), a + b, k, t);
    }
  }

  /** Writing record q where record q - 1 starts, and record q - 1 behind it, exchanges them. */
  lemma OverwriteSwaps(data: seq<byte>, n: nat, k: nat, q: nat)
    requires 1 <= q < n && Offset(n, k) <= |data|
    ensures Offset(q - 1, k) + 2 * k <= |data| && Offset(q - 1, k) + k == Offset(q, k)
    ensures |RecordAt(data, k, q)| == k && |RecordAt(data, k, q - 1)| == k
    ensures var data' := Overwrite(data, Offset(q - 1, k), RecordAt(data, k, q) + RecordAt(data, k, q - 1));
            && |data'| == |data| && data'[Offset(n, k)..] == data[Offset(n, k)..]
            && RecordsOf(data', n, k) == Swap(RecordsOf(data, n, k), q)
  {
    hide Offset;
    RecordFits(data, n, k, q);
    RecordFits(data, n, k, q - 1);
    OffsetNext(q - 1, k);
    OffsetNext(q, k);
    OffsetMono(q + 1, n, k);
    var o, a, b := Offset(q - 1, k), RecordAt(data, k, q), RecordAt(data, k, q - 1);
    var data' := Overwrite(data, o, a + b);
    OverwriteInside(data, o, a, b);
    OverwriteElsewhere(data, o, a + b, Offset(n, k), |data| - Offset(n, k));
    hide Overwrite;
    forall t | 0 <= t < n
      ensures RecordAt(data', k, t) == Swap(RecordsOf(data, n, k), q)[t]
    {
      SwappedRecord(data, a, b, n, k, q, t);
    }
    hide RecordAt;
  }
}
