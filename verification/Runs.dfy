/** Runs of a concurrent system.

    A system is a deterministic step function over actions: an action says which
    thread moves (and, where the environment has a choice, which one it makes),
    and `next` returns None when that thread is blocked.  A run is then a schedule,
    that is, a sequence of actions. */
module Runs {

  datatype Option<+T> = None | Some(value: T)

  /** The state a schedule leads to, or None when some action was blocked. */
  function Exec<S, A>(next: (S, A) -> Option<S>, s: S, schedule: seq<A>): Option<S>
    decreases |schedule|
  {
    if schedule == [] then Some(s)
    else
      match Exec(next, s, schedule[..|schedule| - 1])
      case None => None
      case Some(m) => next(m, schedule[|schedule| - 1])
  }

  /** Sum of `slack` over the steps of a schedule: how much the environment may
      add to a termination measure on the way. */
  ghost function TotalSlack<S, A>(next: (S, A) -> Option<S>, slack: (S, A) -> nat, s: S, schedule: seq<A>): nat
    decreases |schedule|
  {
    if schedule == [] then 0
    else
      var front := schedule[..|schedule| - 1];
      TotalSlack(next, slack, s, front) +
      match Exec(next, s, front)
      case None => 0
      case Some(m) => slack(m, schedule[|schedule| - 1])
  }

  /** A property kept by every step holds in every reachable state. */
  lemma {:induction false} InvariantHolds<S(!new), A(!new)>(
    next: (S, A) -> Option<S>, inv: S -> bool, s: S, schedule: seq<A>)
    requires inv(s)
    requires forall m, a :: inv(m) && next(m, a).Some? ==> inv(next(m, a).value)
    ensures Exec(next, s, schedule).Some? ==> inv(Exec(next, s, schedule).value)
    decreases |schedule|
  {
    if schedule != [] {
      InvariantHolds(next, inv, s, schedule[..|schedule| - 1]);
    }
  }

  /** If every step lowers `measure`, up to the slack of that step, then the length
      of a run is bounded by the initial measure and the slack it used. */
  lemma {:induction false} LengthBounded<S(!new), A(!new)>(
    next: (S, A) -> Option<S>, inv: S -> bool, measure: S -> nat, slack: (S, A) -> nat, s: S, schedule: seq<A>)
    requires inv(s)
    requires forall m, a :: inv(m) && next(m, a).Some? ==> inv(next(m, a).value)
    requires forall m, a :: inv(m) && next(m, a).Some? ==> measure(next(m, a).value) + 1 <= measure(m) + slack(m, a)
    ensures var r := Exec(next, s, schedule);
            r.Some? ==> |schedule| + measure(r.value) <= measure(s) + TotalSlack(next, slack, s, schedule)
    decreases |schedule|
  {
    if schedule != [] {
      var front := schedule[..|schedule| - 1];
      InvariantHolds(next, inv, s, front);
      LengthBounded(next, inv, measure, slack, s, front);
    }
  }

  /** The same without slack. */
  lemma {:induction false} LengthAtMost<S(!new), A(!new)>(
    next: (S, A) -> Option<S>, inv: S -> bool, measure: S -> nat, s: S, schedule: seq<A>)
    requires inv(s)
    requires forall m, a :: inv(m) && next(m, a).Some? ==> inv(next(m, a).value) && measure(next(m, a).value) < measure(m)
    ensures var r := Exec(next, s, schedule); r.Some? ==> |schedule| + measure(r.value) <= measure(s)
    decreases |schedule|
  {
    if schedule != [] {
      var front := schedule[..|schedule| - 1];
      InvariantHolds(next, inv, s, front);
      LengthAtMost(next, inv, measure, s, front);
    }
  }

  /** Some schedule leads from a to b. */
  ghost predicate CanReach<S(!new), A(!new)>(next: (S, A) -> Option<S>, a: S, b: S) {
    exists schedule: seq<A> :: Exec(next, a, schedule) == Some(b)
  }

  lemma Standing<S(!new), A(!new)>(next: (S, A) -> Option<S>, s: S)
    ensures CanReach(next, s, s)
  {
    var none: seq<A> := [];
    assert Exec(next, s, none) == Some(s);
  }

  lemma Onward<S(!new), A(!new)>(next: (S, A) -> Option<S>, a: S, b: S, x: A, b': S)
    requires CanReach(next, a, b) && next(b, x) == Some(b')
    ensures CanReach(next, a, b')
  {
    var schedule: seq<A> :| Exec(next, a, schedule) == Some(b);
    assert (schedule + [x])[..|schedule|] == schedule;
    assert Exec(next, a, schedule + [x]) == Some(b');
  }

  /** A run can be cut in two at any point. */
  lemma {:induction false} ExecConcat<S, A>(next: (S, A) -> Option<S>, s: S, first: seq<A>, second: seq<A>)
    ensures Exec(next, s, first + second) ==
            match Exec(next, s, first) case None => None case Some(m) => Exec(next, m, second)
    decreases |second|
  {
    var all := first + second;
    if second == [] {
      assert all == first;
    } else {
      var n := |second| - 1;
      assert all[..|all| - 1] == first + second[..n];
      ExecConcat(next, s, first, second[..n]);
    }
  }
}
