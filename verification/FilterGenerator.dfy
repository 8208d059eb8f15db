/** The filter generator, and what it promises about every image put through its filters. */
module FilterGenerator {
  import opened Runs
  import opened Convolution

  function Swap(s: seq<int>, i: nat, j: nat): (r: seq<int>)
    requires i < |s| && j < |s|
    ensures |r| == |s| && r[i] == s[j] && r[j] == s[i]
    ensures forall k :: 0 <= k < |s| && k != i && k != j ==> r[k] == s[k]
  {
    s[i := s[j]][j := s[i]]
  }

  /** The array after the first n turns of the shuffle; choices are the values of rand() % c. */
  function Shuffled(s: seq<int>, choices: seq<nat>, n: nat): (r: seq<int>)
    requires n <= |choices| == |s| && forall i :: 0 <= i < n ==> choices[i] < |s|
    ensures |r| == |s|
  {
    if n == 0 then s else Swap(Shuffled(s, choices, n - 1), choices[n - 1], n - 1)
  }

  lemma SwapPermutes(s: seq<int>, i: nat, j: nat)
    requires i < |s| && j < |s|
    ensures multiset(Swap(s, i, j)) == multiset(s)
  {
  }

  lemma ShuffledStep(s: seq<int>, choices: seq<nat>, n: nat)
    requires n <= |choices| == |s| && forall i :: 0 <= i < n ==> choices[i] < |s|
    ensures Shuffled(s, choices, n) == if n == 0 then s else Swap(Shuffled(s, choices, n - 1), choices[n - 1], n - 1)
  {
  }

  /** Turn n exchanges place n - 1 with the one chosen, and leaves the others alone. */
  lemma ShuffleTurn(s: seq<int>, choices: seq<nat>, n: nat)
    requires AreChoices(choices, |s|) && 1 <= n <= |s|
    ensures var before, after, chosen := Shuffled(s, choices, n - 1), Shuffled(s, choices, n), choices[n - 1];
            && after[n - 1] == before[chosen] && after[chosen] == before[n - 1]
            && forall k :: 0 <= k < |s| && k != n - 1 && k != chosen ==> after[k] == before[k]
  {
    ShuffledStep(s, choices, n);
    hide Shuffled;
  }

  lemma {:induction false} ShuffledPermutes(s: seq<int>, choices: seq<nat>, n: nat)
    requires n <= |choices| == |s| && forall i :: 0 <= i < n ==> choices[i] < |s|
    ensures multiset(Shuffled(s, choices, n)) == multiset(s)
  {
    hide Swap, Shuffled;
    ShuffledStep(s, choices, n);
    if n > 0 {
      ShuffledPermutes(s, choices, n - 1);
      SwapPermutes(Shuffled(s, choices, n - 1), choices[n - 1], n - 1);
    }
  }

  /** What rand() % n can give in n turns. */
  predicate AreChoices(choices: seq<nat>, n: nat) {
    |choices| == n && forall k :: 0 <= k < n ==> choices[k] < n
  }

  /** Choices that bring t into the places below n, one turn after the other. */
  lemma {:induction false} ChoicesFor(s: seq<int>, t: seq<int>, n: nat) returns (choices: seq<nat>)
    requires multiset(s) == multiset(t) && n <= |s|
    ensures |s| == |t| && AreChoices(choices, |s|)
    ensures Shuffled(s, choices, n)[..n] == t[..n]
  {
    SameLength(s, t);
    if n == 0 {
      choices := seq(|s|, _ => 0);
    } else {
      choices := ChoicesFor(s, t, n - 1);
      hide Shuffled, AreChoices;
      choices := NextChoice(s, t, choices, n);
    }
  }

  lemma NextChoice(s: seq<int>, t: seq<int>, before: seq<nat>, n: nat) returns (choices: seq<nat>)
    requires multiset(s) == multiset(t) && 1 <= n <= |s| == |t| && AreChoices(before, |s|)
    requires Shuffled(s, before, n - 1)[..n - 1] == t[..n - 1]
    ensures AreChoices(choices, |s|) && Shuffled(s, choices, n)[..n] == t[..n]
  {
    hide Shuffled, Swap;
    var now := Shuffled(s, before, n - 1);
    ShuffledPermutes(s, before, n - 1);
    var k := Among(now, t, n - 1);
    choices := before[n - 1 := k];
    SameTurns(s, before, choices, n - 1);
    ShuffledStep(s, choices, n);
    TakesPlace(now, t, k, n);
  }

  lemma SameLength(s: seq<int>, t: seq<int>)
    requires multiset(s) == multiset(t)
    ensures |s| == |t|
  {
    assert |s| == |multiset(s)| == |multiset(t)| == |t|;
  }

  lemma TakesPlace(now: seq<int>, t: seq<int>, k: nat, n: nat)
    requires 1 <= n <= |now| == |t| && now[..n - 1] == t[..n - 1] && n - 1 <= k < |now| && now[k] == t[n - 1]
    ensures Swap(now, k, n - 1)[..n] == t[..n]
  {
    var r := Swap(now, k, n - 1);
    forall x | 0 <= x < n ensures r[x] == t[x] {
      if x < n - 1 { assert now[..n - 1][x] == t[..n - 1][x]; }
    }
  }

  lemma CountOfRest(s: seq<int>, n: nat, v: int)
    requires n <= |s|
    ensures multiset(s)[v] == multiset(s[..n])[v] + multiset(s[n..])[v]
  {
    assert s == s[..n] + s[n..];
  }

  /** Where the next element of t is, if the places before it are right already. */
  lemma Among(now: seq<int>, t: seq<int>, n: nat) returns (k: nat)
    requires multiset(now) == multiset(t) && n < |t| && |now| == |t| && now[..n] == t[..n]
    ensures n <= k < |now| && now[k] == t[n]
  {
    CountOfRest(now, n, t[n]);
    CountOfRest(t, n, t[n]);
    assert t[n..][0] in multiset(t[n..]);
    assert t[n] in multiset(now[n..]);
    var x :| 0 <= x < |now[n..]| && now[n..][x] == t[n];
    k := n + x;
  }

  lemma {:induction false} SameTurns(s: seq<int>, a: seq<nat>, b: seq<nat>, n: nat)
    requires |a| == |b| == |s| && n <= |s|
    requires (forall i :: 0 <= i < |s| ==> a[i] < |s| && b[i] < |s|) && forall i :: 0 <= i < n ==> a[i] == b[i]
    ensures Shuffled(s, a, n) == Shuffled(s, b, n)
  {
    if n > 0 { SameTurns(s, a, b, n - 1); }
  }

  /** Every order can come out of the shuffle. */
  lemma EveryOrderArises(s: seq<int>, t: seq<int>) returns (choices: seq<nat>)
    requires multiset(s) == multiset(t)
    ensures AreChoices(choices, |s|) && Shuffled(s, choices, |s|) == t
  {
    choices := ChoicesFor(s, t, |s|);
    hide Shuffled;
    assert t[..|s|] == t && Shuffled(s, choices, |s|)[..|s|] == Shuffled(s, choices, |s|);
  }

  function Total(s: seq<int>): int {
    if s == [] then 0 else Total(s[..|s| - 1]) + s[|s| - 1]
  }

  lemma {:induction false} TotalUpdate(s: seq<int>, i: nat, v: int)
    requires i < |s|
    ensures Total(s[i := v]) == Total(s) - s[i] + v
  {
    var n := |s| - 1;
    if i == n {
      assert s[i := v][..n] == s[..n];
    } else {
      assert s[i := v][..n] == s[..n][i := v];
      TotalUpdate(s[..n], i, v);
    }
  }

  lemma SwapKeepsTotal(s: seq<int>, i: nat, j: nat)
    requires i < |s| && j < |s|
    ensures Total(Swap(s, i, j)) == Total(s)
  {
    TotalUpdate(s, i, s[j]);
    TotalUpdate(s[i := s[j]], j, s[i]);
  }

  lemma {:induction false} ShuffledKeepsTotal(s: seq<int>, choices: seq<nat>, n: nat)
    requires n <= |choices| == |s| && forall i :: 0 <= i < n ==> choices[i] < |s|
    ensures Total(Shuffled(s, choices, n)) == Total(s)
  {
    hide Total;
    if n > 0 {
      ShuffledKeepsTotal(s, choices, n - 1);
      SwapKeepsTotal(Shuffled(s, choices, n - 1), choices[n - 1], n - 1);
    }
  }

  function Counting(n: nat): (s: seq<int>)
    ensures |s| == n && forall i :: 0 <= i < n ==> s[i] == i
  {
    seq(n, i => i)
  }

  lemma {:induction false} TotalCounting(n: nat)
    ensures 2 * Total(Counting(n)) == n * (n - 1)
  {
    if n > 0 {
      TotalCounting(n - 1);
      assert Counting(n)[..n - 1] == Counting(n - 1);
    }
  }

  /** The divisor c * (c - 1) / 2.0, with c the number of coefficients. */
  function Divisor(n: nat): real { (n * (n - 1)) as real / 2.0 }

  method Shuffle(a: array<int>, choices: seq<nat>)
    requires |choices| == a.Length && forall i :: 0 <= i < a.Length ==> choices[i] < a.Length
    modifies a
    ensures a[..] == Shuffled(old(a[..]), choices, a.Length)
  {
    for i := 0 to a.Length
      invariant a[..] == Shuffled(old(a[..]), choices, i)
    {
      var random := choices[i];
      var tmp := a[random];
      a[random] := a[i];
      a[i] := tmp;
    }
  }

  /** What the program writes to its file: nothing usable when the divisor is 0 (0 / 0.0 is not
      a number), and otherwise one coefficient a line. */
  method Generate(side: nat, choices: seq<nat>) returns (d: Option<seq<real>>)
    requires AreChoices(choices, Square(side))
    ensures d.None? <==> side == 1
    ensures d.Some? ==> Square(side) != 1 && d.value == Generated(choices, Square(side))
  {
    var c := Square(side);
    var a := new int[c];
    for i := 0 to c
      invariant forall k :: 0 <= k < i ==> a[k] == k
    {
      a[i] := i;
    }
    assert a[..] == Counting(c);
    Shuffle(a, choices);
    if side == 1 { return None; }
    if side >= 2 { SquareAtLeast4(side); DivisorPositive(c); }
    var out := new real[c];
    for i := 0 to c
      invariant a[..] == Shuffled(Counting(c), choices, c)
      invariant forall k :: 0 <= k < i ==> out[k] == Coefficients(a[..])[k]
    {
      out[i] := a[i] as real / Divisor(c);
    }
    assert out[..] == Coefficients(a[..]);
    return Some(out[..]);
  }

  function Coefficients(a: seq<int>): (d: seq<real>)
    requires |a| != 1
    ensures |d| == |a|
  {
    seq(|a|, k requires 0 <= k < |a| => DivisorPositive(|a|); a[k] as real / Divisor(|a|))
  }

  lemma DivisorPositive(n: nat)
    requires n >= 2
    ensures Divisor(n) > 0.0
  {
    assert n * (n - 1) >= 1;
  }

  lemma SquareAtLeast4(side: nat)
    requires side >= 2
    ensures Square(side) >= 4
  {
  }

  function TotalReal(s: seq<real>): real {
    if s == [] then 0.0 else TotalReal(s[..|s| - 1]) + s[|s| - 1]
  }

  lemma {:induction false} TotalScales(a: seq<int>, d: seq<real>, by': real, n: nat)
    requires n <= |a| == |d| && by' > 0.0 && forall k :: 0 <= k < n ==> d[k] == a[k] as real / by'
    ensures TotalReal(d[..n]) == Total(a[..n]) as real / by'
  {
    if n > 0 {
      assert a[..n][..n - 1] == a[..n - 1] && d[..n][..n - 1] == d[..n - 1];
      TotalScales(a, d, by', n - 1);
    }
  }

  /** The coefficients the generator writes: those of the shuffled numbers 0 .. n - 1. */
  function Generated(choices: seq<nat>, n: nat): (d: seq<real>)
    requires AreChoices(choices, n) && n != 1
    ensures |d| == n
  {
    Coefficients(Shuffled(Counting(n), choices, n))
  }

  /** For two coefficients or more, whatever rand() returns: none is negative, and they sum to 1. */
  lemma CoefficientsAreWeights(choices: seq<nat>, n: nat)
    requires AreChoices(choices, n) && n >= 2
    ensures forall k :: 0 <= k < n ==> Generated(choices, n)[k] >= 0.0
    ensures TotalReal(Generated(choices, n)) == 1.0
  {
    hide Shuffled, Total, TotalReal, Divisor, Counting, Coefficients;
    ShuffledKeepsTotal(Counting(n), choices, n);
    DivisorIsTotal(n);
    DivisorPositive(n);
    CoefficientsSum(Shuffled(Counting(n), choices, n));
    forall k | 0 <= k < n ensures Generated(choices, n)[k] >= 0.0 {
      ShuffledNotNegative(choices, n, k);
      CoefficientAt(Shuffled(Counting(n), choices, n), k);
    }
  }

  lemma ShuffledNotNegative(choices: seq<nat>, n: nat, k: nat)
    requires AreChoices(choices, n) && k < n
    ensures Shuffled(Counting(n), choices, n)[k] >= 0
  {
    hide Shuffled;
    var a := Shuffled(Counting(n), choices, n);
    ShuffledPermutes(Counting(n), choices, n);
    assert a[k] in multiset(a);
    assert a[k] in Counting(n);
  }

  lemma CoefficientAt(a: seq<int>, k: nat)
    requires |a| >= 2 && k < |a|
    ensures Divisor(|a|) > 0.0 && Coefficients(a)[k] == a[k] as real / Divisor(|a|)
    ensures a[k] >= 0 ==> Coefficients(a)[k] >= 0.0
  {
    DivisorPositive(|a|);
    hide Divisor;
  }

  lemma CoefficientsSum(a: seq<int>)
    requires |a| >= 2 && Total(a) as real == Divisor(|a|)
    ensures TotalReal(Coefficients(a)) == 1.0
  {
    hide Total, TotalReal, Divisor, Coefficients;
    var d, n := Coefficients(a), |a|;
    forall k | 0 <= k < n ensures Divisor(n) > 0.0 && d[k] == a[k] as real / Divisor(n) { CoefficientAt(a, k); }
    assert Divisor(n) > 0.0 by { CoefficientAt(a, 0); }
    TotalScales(a, d, Divisor(n), n);
    assert a[..n] == a && d[..n] == d;
    assert Divisor(n) / Divisor(n) == 1.0;
  }

  lemma DivisorIsTotal(n: nat)
    ensures Total(Counting(n)) as real == Divisor(n)
  {
    TotalCounting(n);
    var t := Total(Counting(n));
    assert (2 * t) as real == (n * (n - 1)) as real;
  }

  function Square(c: nat): nat { c * c }

  /** The line of the file on which entry (i, j) stands. */
  function Line(i: nat, j: nat, c: nat): nat { i * c + j }

  lemma Lines(i: nat, c: nat)
    ensures Line(0, 0, c) == 0 && Line(c, 0, c) == Square(c)
    ensures Line(i + 1, 0, c) == Line(i, c, c)
    ensures i < c ==> Line(i, c, c) <= Square(c)
  {
    if i < c { assert (i + 1) * c <= c * c; }
  }

  lemma LineInSquare(i: nat, j: nat, c: nat)
    requires i < c && j < c
    ensures Line(i, j, c) < Square(c)
  {
    Lines(i, c);
  }

  /** The filter program reads the lines back row by row. */
  function KernelOf(d: seq<real>, c: nat): (kernel: Kernel)
    requires |d| == Square(c)
    ensures |kernel| == c && forall i :: 0 <= i < c ==> |kernel[i]| == c
  {
    seq(c, i requires 0 <= i < c =>
      seq(c, j requires 0 <= j < c => LineInSquare(i, j, c); d[Line(i, j, c)]))
  }

  /** The kernel's rows one after another. */
  function Rows(kernel: Kernel): seq<real> {
    if kernel == [] then [] else Rows(kernel[..|kernel| - 1]) + kernel[|kernel| - 1]
  }

  lemma {:induction false} RowsAreLines(d: seq<real>, c: nat, i: nat)
    requires |d| == Square(c) && i <= c
    ensures Line(i, 0, c) <= |d| && Rows(KernelOf(d, c)[..i]) == d[..Line(i, 0, c)]
  {
    if i == 0 {
      Lines(0, c);
    } else {
      RowsAreLines(d, c, i - 1);
      Lines(i - 1, c);
      var kernel, at := KernelOf(d, c), Line(i - 1, 0, c);
      assert kernel[..i][..i - 1] == kernel[..i - 1];
      RowIsLines(d, c, i - 1);
      assert Line(i, 0, c) == at + c;
      assert d[..at + c] == d[..at] + d[at..at + c];
    }
  }

  lemma RowIsLines(d: seq<real>, c: nat, i: nat)
    requires |d| == Square(c) && i < c
    ensures Line(i, 0, c) + c <= |d| && KernelOf(d, c)[i] == d[Line(i, 0, c)..Line(i, 0, c) + c]
  {
    Lines(i, c);
    forall j | 0 <= j < c ensures KernelOf(d, c)[i][j] == d[Line(i, 0, c) + j] {
      LineInSquare(i, j, c);
    }
  }

  /** Read row by row, the filter is the list of lines the generator wrote. */
  lemma KernelIsLines(d: seq<real>, c: nat)
    requires |d| == Square(c)
    ensures Rows(KernelOf(d, c)) == d
  {
    RowsAreLines(d, c, c);
    Lines(c, c);
    assert KernelOf(d, c)[..c] == KernelOf(d, c) && d[..Square(c)] == d;
  }

  /** The sum of the kernel's entries that come before (i, j). */
  function Mass(kernel: Kernel, c: nat, i: nat, j: nat): real
    requires IsKernel(kernel, c) && i <= c && j <= c && (i == c ==> j == 0)
    decreases i, j
  {
    if j > 0 then Mass(kernel, c, i, j - 1) + kernel[i][j - 1]
    else if i > 0 then Mass(kernel, c, i - 1, c)
    else 0.0
  }

  lemma {:induction false} MassIsTotal(d: seq<real>, c: nat, i: nat, j: nat)
    requires |d| == Square(c) && i <= c && j <= c && (i == c ==> j == 0)
    ensures Line(i, j, c) <= |d|
    ensures Mass(KernelOf(d, c), c, i, j) == TotalReal(d[..Line(i, j, c)])
    decreases i, j
  {
    if j > 0 {
      MassIsTotal(d, c, i, j - 1);
      LineInSquare(i, j - 1, c);
      var n := Line(i, j - 1, c);
      assert Line(i, j, c) == n + 1;
      hide Line, Square;
      assert d[..n + 1][..n] == d[..n];
      assert KernelOf(d, c)[i][j - 1] == d[n];
    } else if i > 0 {
      Lines(i - 1, c);
      MassIsTotal(d, c, i - 1, c);
    } else {
      Lines(0, c);
    }
  }

  predicate InRange(img: Image, lo: int, hi: int) {
    forall x, y :: 0 <= x < |img| && 0 <= y < |img[x]| ==> lo <= img[x][y] <= hi
  }

  predicate NonNegative(kernel: Kernel) {
    forall i, j :: 0 <= i < |kernel| && 0 <= j < |kernel[i]| ==> kernel[i][j] >= 0.0
  }

  lemma OneMoreTerm(lo: real, hi: real, mass: real, sum: real, v: real, k: real)
    requires lo * mass <= sum <= hi * mass && lo <= v <= hi && k >= 0.0
    ensures lo * (mass + k) <= sum + v * k <= hi * (mass + k)
  {
    assert lo * k <= v * k <= hi * k;
  }

  lemma TermBetween(job: Job, lo: int, hi: int, x: nat, y: nat, i: nat, j: nat) returns (v: int)
    requires job.Valid() && x < job.height && y < job.width && i < job.c && j < job.c
    requires InRange(job.img, lo, hi)
    ensures Term(job, x, y, i, j) == v as real * job.kernel[i][j] && lo <= v <= hi
  {
    IndexIsNearest(x, job.c, i, job.height);
    IndexIsNearest(y, job.c, j, job.width);
    v := job.img[Index(x, job.c, i, job.height)][Index(y, job.c, j, job.width)];
  }

  /** A weighted sum of values in a range lies in the range scaled by the weights. */
  lemma {:induction false} SumBetween(job: Job, lo: int, hi: int, x: nat, y: nat, i: nat, j: nat)
    requires job.Valid() && x < job.height && y < job.width && i <= job.c && j <= job.c && (i == job.c ==> j == 0)
    requires InRange(job.img, lo, hi) && NonNegative(job.kernel)
    ensures var mass := Mass(job.kernel, job.c, i, j);
            lo as real * mass <= Sum(job, x, y, i, j) <= hi as real * mass
    decreases i, j
  {
    hide InRange, Term;
    if j > 0 {
      SumBetween(job, lo, hi, x, y, i, j - 1);
      var v := TermBetween(job, lo, hi, x, y, i, j - 1);
      OneMoreTerm(lo as real, hi as real, Mass(job.kernel, job.c, i, j - 1), Sum(job, x, y, i, j - 1),
                  v as real, job.kernel[i][j - 1]);
    } else if i > 0 {
      SumBetween(job, lo, hi, x, y, i - 1, job.c);
    }
  }

  /** A filter with non-negative entries that sum to 1 keeps every image in its range. */
  lemma WeightsKeepRange(job: Job, lo: int, hi: int)
    requires job.Valid() && InRange(job.img, lo, hi) && NonNegative(job.kernel) && Mass(job.kernel, job.c, job.c, 0) == 1.0
    ensures InRange(Filtered(job), lo, hi)
  {
    forall x, y | 0 <= x < job.height && 0 <= y < job.width ensures lo <= Filtered(job)[x][y] <= hi {
      SumBetween(job, lo, hi, x, y, job.c, 0);
      RoundStaysBetween(Sum(job, x, y, job.c, 0), lo, hi);
    }
  }

  /** Both programs together: an image with values in lo .. hi, put through a generated filter
      of side 2 or more, has its values in lo .. hi again. */
  lemma GeneratedFilterKeepsRange(img: Image, height: nat, width: nat, side: nat, choices: seq<nat>, lo: int, hi: int)
    requires IsImage(img, height, width) && InRange(img, lo, hi)
    requires side >= 2 && AreChoices(choices, Square(side))
    ensures Square(side) != 1
    ensures InRange(Filtered(Job(img, height, width, KernelOf(Generated(choices, Square(side)), side), side)), lo, hi)
  {
    SquareAtLeast4(side);
    hide Square, Line;
    CoefficientsAreWeights(choices, Square(side));
    var d := Generated(choices, Square(side));
    var kernel := KernelOf(d, side);
    MassIsTotal(d, side, side, 0);
    Lines(0, side);
    assert d[..Square(side)] == d;
    forall i, j | 0 <= i < side && 0 <= j < side ensures kernel[i][j] >= 0.0 {
      LineInSquare(i, j, side);
      assert kernel[i][j] == d[Line(i, j, side)];
    }
    WeightsKeepRange(Job(img, height, width, kernel, side), lo, hi);
  }

  /** The coefficients the generator writes are weights that sum to 1 exactly when the side is
      at least 2: for side 0 there are none, and for side 1 none that is a number. */
  lemma WeightsIff(side: nat, choices: seq<nat>)
    requires AreChoices(choices, Square(side))
    ensures side >= 2 <==> Square(side) != 1 && TotalReal(Generated(choices, Square(side))) == 1.0
  {
    if side >= 2 {
      SquareAtLeast4(side);
      CoefficientsAreWeights(choices, Square(side));
    } else if side == 0 {
      assert Generated(choices, 0) == [];
    }
  }

  /** An empty filter turns every pixel to 0. */
  lemma EmptyFilterGivesZeros(job: Job)
    requires job.Valid() && job.c == 0
    ensures forall x, y :: 0 <= x < job.height && 0 <= y < job.width ==> Filtered(job)[x][y] == 0
  {
    forall x, y | 0 <= x < job.height && 0 <= y < job.width ensures Filtered(job)[x][y] == 0 {
      assert Sum(job, x, y, 0, 0) == 0.0;
    }
  }

  /** Exactly when a generated filter keeps the range of an image: if its side is 2 or more; for
      side 0 only if there is no pixel or 0 is in the range.  For side 1 there is no filter. */
  lemma RangeKeptIff(img: Image, height: nat, width: nat, side: nat, choices: seq<nat>, lo: int, hi: int)
    requires IsImage(img, height, width) && InRange(img, lo, hi)
    requires AreChoices(choices, Square(side)) && Square(side) != 1
    ensures InRange(Filtered(Job(img, height, width, KernelOf(Generated(choices, Square(side)), side), side)), lo, hi)
            <==> side >= 2 || height == 0 || width == 0 || lo <= 0 <= hi
  {
    if side >= 2 {
      GeneratedFilterKeepsRange(img, height, width, side, choices, lo, hi);
    } else {
      SideIsZero(side);
      var job := Job(img, height, width, KernelOf(Generated(choices, Square(side)), side), side);
      EmptyFilterGivesZeros(job);
      hide Filtered, Generated, KernelOf;
      var out := Filtered(job);
      assert height > 0 && width > 0 ==> out[0][0] == 0;
    }
  }

  lemma SideIsZero(side: nat)
    requires side < 2 && Square(side) != 1
    ensures side == 0
  {
  }
}
