/** The image filter: each output pixel is a weighted sum over a window of the input, window
    positions outside the image being moved to its border, rounded to the nearest integer. */
module Convolution {
  type Image = seq<seq<int>>
  type Kernel = seq<seq<real>>

  predicate IsImage(img: Image, height: nat, width: nat) {
    |img| == height && forall x :: 0 <= x < height ==> |img[x]| == width
  }

  predicate IsKernel(kernel: Kernel, c: nat) {
    |kernel| == c && forall i :: 0 <= i < c ==> |kernel[i]| == c
  }

  /** The program's globals while its threads run. */
  datatype Job = Job(img: Image, height: nat, width: nat, kernel: Kernel, c: nat) {
    predicate Valid() {
      IsImage(img, height, width) && IsKernel(kernel, c)
    }
  }

  /** ceil(c / 2.0) */
  function HalfUp(c: nat): (h: nat)
    ensures h as real - 1.0 < c as real / 2.0 <= h as real
  {
    (c + 1) / 2
  }

  /** The index the program computes: a comparison against 0, then one against n - 1. */
  function Index(x: int, c: nat, i: int, n: nat): int {
    if x - HalfUp(c) + i > 0
    then if x - HalfUp(c) + i < n - 1 then x - HalfUp(c) + i else n - 1
    else 0
  }

  /** It is the nearest position inside the image to the one the window asks for. */
  lemma IndexIsNearest(x: int, c: nat, i: int, n: nat)
    requires n >= 1
    ensures 0 <= Index(x, c, i, n) < n
    ensures var want := x - HalfUp(c) + i;
            && (0 <= want < n ==> Index(x, c, i, n) == want)
            && forall p {:trigger Distance(p, want)} :: 0 <= p < n ==> Distance(Index(x, c, i, n), want) <= Distance(p, want)
  {
  }

  function Distance(p: int, q: int): nat { if p < q then q - p else p - q }

  function Term(job: Job, x: nat, y: nat, i: nat, j: nat): real
    requires job.Valid() && x < job.height && y < job.width && i < job.c && j < job.c
  {
    job.img[Index(x, job.c, i, job.height)][Index(y, job.c, j, job.width)] as real * job.kernel[i][j]
  }

  /** The sum of the terms that come before (i, j), row by row. */
  function Sum(job: Job, x: nat, y: nat, i: nat, j: nat): real
    requires job.Valid() && x < job.height && y < job.width && i <= job.c && j <= job.c && (i == job.c ==> j == 0)
    decreases i, j
  {
    if j > 0 then Sum(job, x, y, i, j - 1) + Term(job, x, y, i, j - 1)
    else if i > 0 then Sum(job, x, y, i - 1, job.c)
    else 0.0
  }

  /** round(): to the nearest integer, halves away from zero. */
  function Round(r: real): int {
    if r >= 0.0 then (r + 0.5).Floor else -((-r + 0.5).Floor)
  }

  lemma RoundIsNearest(r: real)
    ensures -0.5 <= Round(r) as real - r <= 0.5
    ensures Round(r) as real - r == 0.5 ==> r > 0.0
    ensures Round(r) as real - r == -0.5 ==> r < 0.0
  {
  }

  lemma RoundStaysBetween(r: real, lo: int, hi: int)
    requires lo as real <= r <= hi as real
    ensures lo <= Round(r) <= hi
  {
    RoundIsNearest(r);
  }

  function Pixel(job: Job, x: nat, y: nat): int
    requires job.Valid() && x < job.height && y < job.width
  {
    Round(Sum(job, x, y, job.c, 0))
  }

  function Filtered(job: Job): (out: Image)
    requires job.Valid()
    ensures IsImage(out, job.height, job.width)
  {
    seq(job.height, x requires 0 <= x < job.height =>
      seq(job.width, y requires 0 <= y < job.width => Pixel(job, x, y)))
  }

  /** One thread: the rows start .. end of the output, in place. */
  method StartRoutine(job: Job, out: array2<int>, start: nat, end: nat)
    requires job.Valid() && out.Length0 == job.height && out.Length1 == job.width
    requires end <= job.height
    modifies out
    ensures forall x, y :: 0 <= x < job.height && 0 <= y < job.width ==>
              out[x, y] == if start <= x < end then Pixel(job, x, y) else old(out[x, y])
  {
    var x := start;
    while x < end
      invariant start <= x && (x <= end || x == start)
      invariant forall p, q :: 0 <= p < job.height && 0 <= q < job.width ==>
                  out[p, q] == if start <= p < x then Pixel(job, p, q) else old(out[p, q])
    {
      var y := 0;
      while y < job.width
        invariant 0 <= y <= job.width
        invariant forall p, q :: 0 <= p < job.height && 0 <= q < job.width ==>
                    out[p, q] == if start <= p < x || (p == x && q < y) then Pixel(job, p, q) else old(out[p, q])
      {
        var s := Window(job, x, y);
        out[x, y] := Round(s);
        y := y + 1;
      }
      x := x + 1;
    }
  }

  /** The two inner loops: s accumulates over the window. */
  method Window(job: Job, x: nat, y: nat) returns (s: real)
    requires job.Valid() && x < job.height && y < job.width
    ensures s == Sum(job, x, y, job.c, 0)
  {
    hide Index;
    s := 0.0;
    var i := 0;
    while i < job.c
      invariant 0 <= i <= job.c && s == Sum(job, x, y, i, 0)
    {
      var j := 0;
      while j < job.c
        invariant 0 <= j <= job.c && s == Sum(job, x, y, i, j)
      {
        IndexIsNearest(x, job.c, i, job.height);
        IndexIsNearest(y, job.c, j, job.width);
        var index_i, index_j := Index(x, job.c, i, job.height), Index(y, job.c, j, job.width);
        var term := job.img[index_i][index_j] as real * job.kernel[i][j];
        assert Sum(job, x, y, i, j + 1) == Sum(job, x, y, i, j) + Term(job, x, y, i, j);
        s := s + term;
        j := j + 1;
      }
      i := i + 1;
    }
  }

  /** The rows thread t of `threads` gets. */
  function First(height: nat, threads: nat, t: nat): nat
    requires threads >= 1
  {
    (height / threads) * (2 * t) / 2
  }

  function Last(height: nat, threads: nat, t: nat): nat
    requires threads >= 1
  {
    if 2 * t == threads * 2 - 2 then height else (height / threads) * (2 * t / 2 + 1)
  }

  lemma RangesInOrder(height: nat, threads: nat, t: nat)
    requires t < threads
    ensures First(height, threads, t) == height / threads * t
    ensures First(height, threads, t) <= Last(height, threads, t) <= height
    ensures t + 1 < threads ==> Last(height, threads, t) == First(height, threads, t + 1)
    ensures First(height, threads, 0) == 0 && Last(height, threads, threads - 1) == height
  {
    var q := height / threads;
    FirstIs(height, threads, t);
    FirstIs(height, threads, 0);
    FirstIs(height, threads, t + 1);
    assert 2 * t / 2 == t;
    ProductMonotone(q, t + 1, threads);
    ProductMonotone(q, t, threads);
    assert q * threads <= height;
    assert q * (t + 1) == q * t + q;
  }

  lemma FirstIs(height: nat, threads: nat, t: nat)
    requires threads >= 1
    ensures First(height, threads, t) == height / threads * t
  {
    var q := height / threads;
    assert q * (2 * t) == 2 * (q * t);
  }

  lemma ProductMonotone(q: nat, a: nat, b: nat)
    requires a <= b
    ensures q * a <= q * b
  {
  }

  lemma {:induction false} RangesClimb(height: nat, threads: nat, t: nat, u: nat)
    requires t < u < threads
    ensures Last(height, threads, t) <= First(height, threads, u)
    decreases u
  {
    RangesInOrder(height, threads, u - 1);
    if t < u - 1 { RangesClimb(height, threads, t, u - 1); }
  }

  ghost predicate Owns(height: nat, threads: nat, t: nat, x: nat)
    requires threads >= 1
  {
    First(height, threads, t) <= x < Last(height, threads, t)
  }

  /** The ranges partition the rows, also when there are more threads than rows. */
  lemma RangesPartition(height: nat, threads: nat, x: nat)
    requires threads >= 1
    ensures x < height ==> exists t :: 0 <= t < threads && Owns(height, threads, t, x)
    ensures forall t, u :: 0 <= t < u < threads && Owns(height, threads, t, x) ==> !Owns(height, threads, u, x)
    ensures forall t :: 0 <= t < threads && Owns(height, threads, t, x) ==> x < height
  {
    forall t, u | 0 <= t < u < threads && Owns(height, threads, t, x) ensures !Owns(height, threads, u, x) {
      RangesClimb(height, threads, t, u);
    }
    forall t | 0 <= t < threads && Owns(height, threads, t, x) ensures x < height {
      RangesInOrder(height, threads, t);
    }
    if x < height { var t := Owner(height, threads, x, threads - 1); }
  }

  lemma {:induction false} Owner(height: nat, threads: nat, x: nat, bound: nat) returns (t: nat)
    requires bound < threads && x < Last(height, threads, bound)
    ensures t < threads && Owns(height, threads, t, x)
    decreases bound
  {
    RangesInOrder(height, threads, bound);
    if First(height, threads, bound) <= x {
      t := bound;
    } else {
      RangesInOrder(height, threads, 0);
      RangesInOrder(height, threads, bound - 1);
      t := Owner(height, threads, x, bound - 1);
    }
  }

  /** The loop the program keeps in a comment: one thread does all the rows. */
  method FilterAll(job: Job, out: array2<int>)
    requires job.Valid() && out.Length0 == job.height && out.Length1 == job.width
    modifies out
    ensures forall x, y :: 0 <= x < job.height && 0 <= y < job.width ==> out[x, y] == Filtered(job)[x][y]
  {
    StartRoutine(job, out, 0, job.height);
  }

  /** Row x belongs to one of the first t threads. */
  ghost predicate Before(height: nat, threads: nat, t: nat, x: nat)
    requires threads >= 1
  {
    t == threads || x < First(height, threads, t)
  }

  /** Threads run one after another, in the order of their creation. */
  method FilterByRanges(job: Job, threads: nat, out: array2<int>)
    requires job.Valid() && out.Length0 == job.height && out.Length1 == job.width && threads >= 1
    modifies out
    ensures forall x, y :: 0 <= x < job.height && 0 <= y < job.width ==> out[x, y] == Filtered(job)[x][y]
  {
    FirstIs(job.height, threads, 0);
    for t := 0 to threads
      invariant forall x, y :: 0 <= x < job.height && 0 <= y < job.width && Before(job.height, threads, t, x) ==>
                  out[x, y] == Pixel(job, x, y)
    {
      RangesInOrder(job.height, threads, t);
      StartRoutine(job, out, First(job.height, threads, t), Last(job.height, threads, t));
    }
  }
}
