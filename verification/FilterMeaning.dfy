/** What the filter computes, said without its loops: a filter with a single 1 at (p, q) picks
    for each pixel the one that lies p rows and q columns into the pixel's window, and the sum
    before rounding is linear in the filter. */
module FilterMeaning {
  import opened Convolution

  /** The nearest of 0 .. n - 1. */
  function Clamp(v: int, n: nat): int { if v >= n then n - 1 else if v < 0 then 0 else v }

  /** Row or column i of the window around position x begins half the filter, rounded up, before x. */
  lemma IndexIsClamp(x: int, c: nat, i: int, n: nat)
    requires n >= 1
    ensures Index(x, c, i, n) == Clamp(x - (c + 1) / 2 + i, n)
  {
  }

  /** 1 at (p, q), and 0 elsewhere. */
  function Impulse(c: nat, p: nat, q: nat): (kernel: Kernel)
    ensures IsKernel(kernel, c)
    ensures forall i, j :: 0 <= i < c && 0 <= j < c ==> kernel[i][j] == if i == p && j == q then 1.0 else 0.0
  {
    seq(c, i => seq(c, j => if i == p && j == q then 1.0 else 0.0))
  }

  /** (i, j) comes after (p, q) row by row. */
  predicate After(i: nat, j: nat, p: nat, q: nat) { i > p || (i == p && j > q) }

  lemma {:induction false} ImpulseSum(job: Job, x: nat, y: nat, p: nat, q: nat, i: nat, j: nat)
    requires job.Valid() && job.kernel == Impulse(job.c, p, q) && p < job.c && q < job.c
    requires x < job.height && y < job.width && i <= job.c && j <= job.c && (i == job.c ==> j == 0)
    ensures Sum(job, x, y, i, j) == if After(i, j, p, q) then Picked(job, x, y, p, q) as real else 0.0
    decreases i, j
  {
    if j > 0 {
      ImpulseSum(job, x, y, p, q, i, j - 1);
      TermIs(job, x, y, i, j - 1);
    } else if i > 0 {
      ImpulseSum(job, x, y, p, q, i - 1, job.c);
    }
  }

  /** The pixel p rows and q columns into the window around (x, y). */
  function Picked(job: Job, x: nat, y: nat, p: nat, q: nat): int
    requires job.Valid() && x < job.height && y < job.width
  {
    job.img[Clamp(x - (job.c + 1) / 2 + p, job.height)][Clamp(y - (job.c + 1) / 2 + q, job.width)]
  }

  lemma TermIs(job: Job, x: nat, y: nat, i: nat, j: nat)
    requires job.Valid() && x < job.height && y < job.width && i < job.c && j < job.c
    ensures Term(job, x, y, i, j) == Picked(job, x, y, i, j) as real * job.kernel[i][j]
  {
    IndexIsClamp(x, job.c, i, job.height);
    IndexIsClamp(y, job.c, j, job.width);
  }

  /** A filter with a single 1 moves the image. */
  lemma ImpulsePicks(img: Image, height: nat, width: nat, c: nat, p: nat, q: nat, x: nat, y: nat)
    requires IsImage(img, height, width) && p < c && q < c && x < height && y < width
    ensures Filtered(Job(img, height, width, Impulse(c, p, q), c))[x][y] ==
            img[Clamp(x - (c + 1) / 2 + p, height)][Clamp(y - (c + 1) / 2 + q, width)]
  {
    var job := Job(img, height, width, Impulse(c, p, q), c);
    ImpulseSum(job, x, y, p, q, c, 0);
    RoundInt(Picked(job, x, y, p, q));
  }

  lemma RoundInt(v: int)
    ensures Round(v as real) == v
  {
    RoundIsNearest(v as real);
  }

  /** a times one filter plus b times another. */
  function Combined(a: real, f: Kernel, b: real, g: Kernel, c: nat): (kernel: Kernel)
    requires IsKernel(f, c) && IsKernel(g, c)
    ensures IsKernel(kernel, c)
    ensures forall i, j :: 0 <= i < c && 0 <= j < c ==> kernel[i][j] == a * f[i][j] + b * g[i][j]
  {
    seq(c, i requires 0 <= i < c => seq(c, j requires 0 <= j < c => a * f[i][j] + b * g[i][j]))
  }

  lemma TermIsLinear(job: Job, a: real, f: Kernel, b: real, g: Kernel, x: nat, y: nat, i: nat, j: nat)
    requires job.Valid() && IsKernel(f, job.c) && IsKernel(g, job.c)
    requires x < job.height && y < job.width && i < job.c && j < job.c
    ensures Term(job.(kernel := Combined(a, f, b, g, job.c)), x, y, i, j) ==
            a * Term(job.(kernel := f), x, y, i, j) + b * Term(job.(kernel := g), x, y, i, j)
  {
    TermIs(job.(kernel := f), x, y, i, j);
    TermIs(job.(kernel := g), x, y, i, j);
    TermIs(job.(kernel := Combined(a, f, b, g, job.c)), x, y, i, j);
    hide Term, Combined;
    Distributes(Picked(job, x, y, i, j) as real, a, f[i][j], b, g[i][j]);
  }

  lemma Distributes(v: real, a: real, f: real, b: real, g: real)
    ensures v * (a * f + b * g) == a * (v * f) + b * (v * g)
  {
    assert v * (a * f) == a * (v * f);
    assert v * (b * g) == b * (v * g);
  }

  lemma Gathers(a: real, s: real, t: real, b: real, u: real, v: real)
    ensures (a * s + b * u) + (a * t + b * v) == a * (s + t) + b * (u + v)
  {
  }

  /** The sum before rounding is linear in the filter. */
  lemma {:induction false} SumIsLinear(job: Job, a: real, f: Kernel, b: real, g: Kernel, x: nat, y: nat, i: nat, j: nat)
    requires job.Valid() && IsKernel(f, job.c) && IsKernel(g, job.c)
    requires x < job.height && y < job.width && i <= job.c && j <= job.c && (i == job.c ==> j == 0)
    ensures Sum(job.(kernel := Combined(a, f, b, g, job.c)), x, y, i, j) ==
            a * Sum(job.(kernel := f), x, y, i, j) + b * Sum(job.(kernel := g), x, y, i, j)
    decreases i, j
  {
    hide Term, Combined;
    var jf, jg := job.(kernel := f), job.(kernel := g);
    if j > 0 {
      SumIsLinear(job, a, f, b, g, x, y, i, j - 1);
      TermIsLinear(job, a, f, b, g, x, y, i, j - 1);
      Gathers(a, Sum(jf, x, y, i, j - 1), Term(jf, x, y, i, j - 1), b, Sum(jg, x, y, i, j - 1), Term(jg, x, y, i, j - 1));
    } else if i > 0 {
      SumIsLinear(job, a, f, b, g, x, y, i - 1, job.c);
    }
  }
}
