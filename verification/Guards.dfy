/** The safety guards' decisions (internal/mirror/guards.go). */
module Guards {
  const MIN_DELETIONS: nat := 10

  /** The deletion cliff lets a pass go on. The clamp of an impossible count is the source's. */
  predicate CliffAllows(deletions: nat, tracked: nat, limit: int) {
    if deletions < MIN_DELETIONS then true
    else if limit >= 100 then true
    else if tracked == 0 then true
    else
      var counted := if deletions > tracked then tracked else deletions;
      counted * 100 / tracked < limit
  }

  /** A rounded-down quotient is below a bound exactly when the product is. */
  lemma QuotientBelow(x: nat, t: nat, limit: int)
    requires 0 < t
    ensures x / t < limit <==> x < limit * t
  {
    var q := x / t;
    assert q * t <= x < q * t + t;
    if q < limit {
      assert (limit - q - 1) * t >= 0;
    } else {
      assert (q - limit) * t >= 0;
    }
  }

  /** Rounding the percentage down never lets a pass through that reaches the limit. */
  lemma CliffExact(deletions: nat, tracked: nat, limit: int)
    requires deletions >= MIN_DELETIONS && limit < 100 && 0 < tracked
    ensures CliffAllows(deletions, tracked, limit) <==>
            deletions * 100 < limit * tracked
  {
    QuotientBelow((if deletions > tracked then tracked else deletions) * 100, tracked, limit);
    if deletions > tracked {
      assert limit * tracked <= 100 * tracked < deletions * 100;
    }
  }

  lemma SubsetSize<T>(a: set<T>, b: set<T>)
    requires a <= b
    ensures |a| <= |b|
  {
    assert b == a + (b - a);
  }

  /** What a pass removes, being among what was due, stays under the limit. */
  lemma CliffBoundsRemovals<T>(removed: set<T>, due: set<T>, tracked: nat, limit: int)
    requires removed <= due && CliffAllows(|due|, tracked, limit)
    requires |due| >= MIN_DELETIONS && limit < 100 && 0 < tracked
    ensures |removed| * 100 < limit * tracked
  {
    SubsetSize(removed, due);
    CliffExact(|due|, tracked, limit);
  }
}
