/** The filter's threads running at the same time.  One step of a thread is one turn of the
    innermost of its loops that is active; all it shares with the others is the output image. */
module FilterThreads {
  import opened Runs
  import opened Convolution

  datatype Thread = Thread(x: nat, y: nat, i: nat, j: nat, s: real)

  datatype State = State(job: Job, out: Image, threads: seq<Thread>)

  predicate Shaped(s: State) { s.job.Valid() && IsImage(s.out, s.job.height, s.job.width) }

  /** Thread t moves; it blocks only when its rows are done. */
  function Next(s: State, t: nat): Option<State> {
    if t >= |s.threads| || !Shaped(s) then None
    else
      var th, job := s.threads[t], s.job;
      if th.x >= Last(job.height, |s.threads|, t) || th.x >= job.height then None
      else if th.y >= job.width then Some(s.(threads := s.threads[t := Thread(th.x + 1, 0, 0, 0, 0.0)]))
      else if th.i >= job.c then
        Some(s.(out := s.out[th.x := s.out[th.x][th.y := Round(th.s)]],
                threads := s.threads[t := Thread(th.x, th.y + 1, 0, 0, 0.0)]))
      else if th.j >= job.c then Some(s.(threads := s.threads[t := th.(i := th.i + 1, j := 0)]))
      else
        Some(s.(threads := s.threads[t := th.(j := th.j + 1, s := th.s + Term(job, th.x, th.y, th.i, th.j))]))
  }

  /** The output starts with whatever malloc left in it. */
  function Init(job: Job, garbage: Image, threads: nat): State
    requires threads >= 1
  {
    State(job, garbage, seq(threads, t requires 0 <= t < threads => Thread(First(job.height, threads, t), 0, 0, 0, 0.0)))
  }

  /** A thread between its first and its last row holds the sum of the terms it has passed. */
  predicate ThreadOk(job: Job, th: Thread, first: nat, last: nat)
    requires job.Valid()
  {
    && first <= th.x <= last <= job.height
    && th.y <= job.width && th.i <= job.c && th.j <= job.c
    && (th.i == job.c ==> th.j == 0)
    && (th.x < job.height && th.y < job.width ==> th.s == Sum(job, th.x, th.y, th.i, th.j))
  }

  predicate Passed(th: Thread, first: nat, x: nat, y: nat) {
    first <= x && (x < th.x || (x == th.x && y < th.y))
  }

  /** The pixels a thread has passed are final. */
  predicate Written(job: Job, out: Image, th: Thread, first: nat, last: nat)
    requires job.Valid() && IsImage(out, job.height, job.width)
  {
    forall x, y :: 0 <= x < job.height && 0 <= y < job.width && x < last && Passed(th, first, x, y) ==>
      out[x][y] == Pixel(job, x, y)
  }

  predicate Inv(s: State) {
    && Shaped(s) && |s.threads| >= 1
    && (forall t :: 0 <= t < |s.threads| ==>
          ThreadOk(s.job, s.threads[t], First(s.job.height, |s.threads|, t), Last(s.job.height, |s.threads|, t)))
    && (forall t :: 0 <= t < |s.threads| ==>
          Written(s.job, s.out, s.threads[t], First(s.job.height, |s.threads|, t), Last(s.job.height, |s.threads|, t)))
  }

  lemma InitInv(job: Job, garbage: Image, threads: nat)
    requires job.Valid() && IsImage(garbage, job.height, job.width) && threads >= 1
    ensures Inv(Init(job, garbage, threads))
  {
    var s := Init(job, garbage, threads);
    forall t | 0 <= t < threads
      ensures ThreadOk(job, s.threads[t], First(job.height, threads, t), Last(job.height, threads, t))
    {
      RangesInOrder(job.height, threads, t);
    }
  }

  lemma StepKeepsInv(s: State, t: nat)
    requires Inv(s) && Next(s, t).Some?
    ensures Inv(Next(s, t).value)
  {
    hide First, Last, Pixel, Round;
    var n, h, job := |s.threads|, s.job.height, s.job;
    var s' := Next(s, t).value;
    var th, th' := s.threads[t], s'.threads[t];
    MoverOk(s, t);
    forall u | 0 <= u < n ensures Written(job, s'.out, s'.threads[u], First(h, n, u), Last(h, n, u)) {
      if u != t {
        if u < t { RangesClimb(h, n, u, t); } else { RangesClimb(h, n, t, u); }
        assert Written(job, s.out, s.threads[u], First(h, n, u), Last(h, n, u));
      }
    }
  }

  lemma MoverOk(s: State, t: nat)
    requires Inv(s) && Next(s, t).Some?
    ensures var s' := Next(s, t).value;
            && Shaped(s') && s'.job == s.job
            && ThreadOk(s.job, s'.threads[t], First(s.job.height, |s.threads|, t), Last(s.job.height, |s.threads|, t))
            && Written(s.job, s'.out, s'.threads[t], First(s.job.height, |s.threads|, t), Last(s.job.height, |s.threads|, t))
  {
    hide First, Last, Term, Round;
    var job, th := s.job, s.threads[t];
    if th.y < job.width && th.i == job.c {
      assert Round(th.s) == Pixel(job, th.x, th.y);
    }
  }

  ghost predicate Reaches(job: Job, garbage: Image, threads: nat, schedule: seq<nat>, s: State)
    requires threads >= 1
  {
    Exec(Next, Init(job, garbage, threads), schedule) == Some(s)
  }

  /** Every thread has done its rows. */
  predicate Joined(s: State) {
    forall t :: 0 <= t < |s.threads| ==> s.threads[t].x >= Last(s.job.height, |s.threads|, t)
  }

  lemma EveryRunKeepsInv(job: Job, garbage: Image, threads: nat, schedule: seq<nat>, s: State)
    requires job.Valid() && IsImage(garbage, job.height, job.width) && threads >= 1
    requires Reaches(job, garbage, threads, schedule, s)
    ensures Inv(s) && s.job == job && |s.threads| == threads
  {
    var inv := s => Inv(s) && s.job == job && |s.threads| == threads;
    InitInv(job, garbage, threads);
    forall m, a | inv(m) && Next(m, a).Some? ensures inv(Next(m, a).value) {
      StepKeepsInv(m, a);
    }
    InvariantHolds(Next, inv, Init(job, garbage, threads), schedule);
  }

  /** Whatever the interleaving, when all threads have been joined the output is the image the
      single loop computes; until then some thread can move. */
  lemma InterleavingDoesNotMatter(job: Job, garbage: Image, threads: nat, schedule: seq<nat>, s: State)
    requires job.Valid() && IsImage(garbage, job.height, job.width) && threads >= 1
    requires Reaches(job, garbage, threads, schedule, s)
    ensures Joined(s) ==> s.out == Filtered(job)
    ensures !Joined(s) ==> exists t :: 0 <= t < threads && Next(s, t).Some?
  {
    EveryRunKeepsInv(job, garbage, threads, schedule, s);
    if Joined(s) {
      forall x, y | 0 <= x < job.height && 0 <= y < job.width ensures s.out[x][y] == Filtered(job)[x][y] {
        RangesPartition(job.height, threads, x);
        var t :| 0 <= t < threads && Owns(job.height, threads, t, x);
        assert Written(job, s.out, s.threads[t], First(job.height, threads, t), Last(job.height, threads, t));
        assert ThreadOk(job, s.threads[t], First(job.height, threads, t), Last(job.height, threads, t));
      }
      forall x | 0 <= x < job.height ensures s.out[x] == Filtered(job)[x] {
        assert |s.out[x]| == |Filtered(job)[x]|;
      }
    } else {
      var t :| 0 <= t < threads && s.threads[t].x < Last(job.height, threads, t);
      assert ThreadOk(job, s.threads[t], First(job.height, threads, t), Last(job.height, threads, t));
      assert Next(s, t).Some?;
    }
  }

  /** Two threads are never about to write the same row. */
  lemma WritesAreDisjoint(job: Job, garbage: Image, threads: nat, schedule: seq<nat>, s: State, t: nat, u: nat)
    requires job.Valid() && IsImage(garbage, job.height, job.width) && threads >= 1
    requires Reaches(job, garbage, threads, schedule, s)
    requires t < u < threads && Next(s, t).Some? && Next(s, u).Some?
    ensures s.threads[t].x < s.threads[u].x
  {
    EveryRunKeepsInv(job, garbage, threads, schedule, s);
    RangesClimb(job.height, threads, t, u);
    assert ThreadOk(job, s.threads[u], First(job.height, threads, u), Last(job.height, threads, u));
  }

  /** A thread waits for nobody: it can go on until its rows are done. */
  lemma ThreadsDoNotWait(job: Job, garbage: Image, threads: nat, schedule: seq<nat>, s: State, t: nat)
    requires job.Valid() && IsImage(garbage, job.height, job.width) && threads >= 1
    requires Reaches(job, garbage, threads, schedule, s) && t < threads
    ensures |s.threads| == threads && (Next(s, t).Some? <==> s.threads[t].x < Last(job.height, threads, t))
  {
    EveryRunKeepsInv(job, garbage, threads, schedule, s);
    assert ThreadOk(job, s.threads[t], First(job.height, threads, t), Last(job.height, threads, t));
  }
}
