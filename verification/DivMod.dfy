/** The few facts about quotient and remainder that the ring cursors and record offsets need. */
module DivMod {

  lemma ProductAtLeast(d: int, n: int)
    requires d >= 1 && n > 0
    ensures d * n >= n
  {
    assert d * n == (d - 1) * n + n;
    assert (d - 1) * n >= 0;
  }

  lemma QuotientUnique(q: int, r: int, q': int, r': int, n: int)
    requires 0 <= r < n && 0 <= r' < n
    requires q * n + r == q' * n + r'
    ensures q == q' && r == r'
  {
    assert (q' - q) * n == q' * n - q * n;
    if q < q' {
      ProductAtLeast(q' - q, n);
    } else if q' < q {
      assert (q - q') * n == q * n - q' * n;
      ProductAtLeast(q - q', n);
    }
  }

  lemma ModIs(a: nat, q: int, r: int, n: int)
    requires 0 <= r < n && a == q * n + r
    ensures a % n == r && a / n == q
  {
    assert a == (a / n) * n + a % n;
    QuotientUnique(a / n, a % n, q, r, n);
  }

  /** The remainder of natural numbers, by repeated subtraction: what C's % computes on
      operands that are not negative. */
  function Remainder(a: nat, n: nat): (r: nat)
    requires n > 0
    ensures r < n
  {
    if a < n then a else Remainder(a - n, n)
  }

  lemma {:induction false} RemainderIsMod(a: nat, n: nat)
    requires n > 0
    ensures Remainder(a, n) == a % n
  {
    if a < n {
      ModIs(a, 0, a, n);
    } else {
      RemainderIsMod(a - n, n);
      var q := (a - n) / n;
      assert (q + 1) * n == q * n + n;
      ModIs(a, q + 1, (a - n) % n, n);
    }
  }

  lemma {:induction false} RemainderInjective(a: nat, b: nat, n: nat)
    requires n > 0 && a < b < a + n
    ensures Remainder(a, n) != Remainder(b, n)
  {
    if a >= n {
      RemainderInjective(a - n, b - n, n);
    }
  }

  lemma {:induction false} RemainderNext(a: nat, n: nat)
    requires n > 0
    ensures Remainder(Remainder(a, n) + 1, n) == Remainder(a + 1, n)
  {
    if a >= n {
      RemainderNext(a - n, n);
    }
  }

  lemma RemainderPeriod(a: nat, n: nat)
    requires n > 0
    ensures Remainder(a + n, n) == Remainder(a, n)
  {
  }
}
