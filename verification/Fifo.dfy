/** The abstract service both ring programs provide: lines leave the input file,
    wait in a bounded first-in first-out queue and are taken one at a time. */
module Fifo {

  datatype Fifo = Fifo(pending: seq<string>, queue: seq<string>, taken: seq<string>)

  ghost predicate Put(capacity: nat, a: Fifo, b: Fifo) {
    && a.pending != []
    && |a.queue| < capacity
    && b == Fifo(a.pending[1..], a.queue + [a.pending[0]], a.taken)
  }

  ghost predicate Take(a: Fifo, b: Fifo) {
    && a.queue != []
    && b == Fifo(a.pending, a.queue[1..], a.taken + [a.queue[0]])
  }

  /** One step of the abstract queue, or none. */
  ghost predicate Step(capacity: nat, a: Fifo, b: Fifo) {
    a == b || Put(capacity, a, b) || Take(a, b)
  }

  /** No step of the queue loses, duplicates or reorders a line. */
  lemma StepConserves(capacity: nat, a: Fifo, b: Fifo)
    requires Step(capacity, a, b)
    ensures b.taken + b.queue + b.pending == a.taken + a.queue + a.pending
    ensures |a.queue| <= capacity ==> |b.queue| <= capacity
  {
    if Put(capacity, a, b) {
      assert a.pending == [a.pending[0]] + a.pending[1..];
    } else if Take(a, b) {
      assert a.queue == [a.queue[0]] + a.queue[1..];
    }
  }
}
