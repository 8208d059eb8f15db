/** How many distinct numbers there can be. */
module Pigeonhole {

  predicate Distinct(xs: seq<nat>) { forall i, j :: 0 <= i < j < |xs| ==> xs[i] != xs[j] }

  /** Distinct numbers below m are at most m. */
  lemma {:induction false} DistinctBounded(xs: seq<nat>, m: nat)
    requires Distinct(xs) && forall i :: 0 <= i < |xs| ==> xs[i] < m
    ensures |xs| <= m
  {
    if m == 0 {
    } else if m - 1 in xs {
      var k :| 0 <= k < |xs| && xs[k] == m - 1;
      var ys := xs[..k] + xs[k + 1..];
      forall i, j | 0 <= i < j < |ys| ensures ys[i] != ys[j] {
        var i', j' := if i < k then i else i + 1, if j < k then j else j + 1;
        assert ys[i] == xs[i'] && ys[j] == xs[j'];
      }
      forall i | 0 <= i < |ys| ensures ys[i] < m - 1 {
        var i' := if i < k then i else i + 1;
        assert ys[i] == xs[i'] && xs[i'] != xs[k];
      }
      DistinctBounded(ys, m - 1);
    } else {
      forall i | 0 <= i < |xs| ensures xs[i] < m - 1 {
        assert xs[i] in xs;
      }
      DistinctBounded(xs, m - 1);
    }
  }

  /** A sequence with all numbers below m in it is at least so long. */
  lemma {:induction false} AllPresent(xs: seq<nat>, m: nat)
    requires forall c: nat :: c < m ==> c in xs
    ensures |xs| >= m
  {
    if m > 0 {
      var last: nat := m - 1;
      assert last in xs;
      var k :| 0 <= k < |xs| && xs[k] == last;
      var ys := xs[..k] + xs[k + 1..];
      forall c: nat | c < m - 1 ensures c in ys {
        assert c in xs;
        var i :| 0 <= i < |xs| && xs[i] == c;
        assert xs[i] == ys[if i < k then i else i - 1];
      }
      AllPresent(ys, m - 1);
    }
  }
}
