/**
 * How `process_objects` cuts a workspace's object ids into pages:
 * `for lim in xrange(LIMIT, n + LIMIT, LIMIT)` with the half-open id range
 * `(lim - LIMIT, lim]` per page, the same range for the object query and
 * the version query.
 */
module Paging {

  /** Objects per page. */
  const LIMIT: int := 10000

  /** How many values `xrange(LIMIT, n + LIMIT, LIMIT)` yields: none for `n <= 0`, else `ceil(n / LIMIT)`. */
  function PageCount(n: int): nat {
    if n <= 0 then 0 else (n - 1) / LIMIT + 1
  }

  /** The `lim` values of the pages, in the order the loop takes them. */
  function PageLimits(n: int): (lims: seq<int>)
    ensures |lims| == PageCount(n)
    ensures forall k | 0 <= k < |lims| :: lims[k] == (k + 1) * LIMIT
  {
    seq(PageCount(n), k => (k + 1) * LIMIT)
  }

  /** The loop test `lim < n + LIMIT` holds for the `k`-th page exactly when `k < PageCount(n)`. */
  lemma PageLoopTest(n: int, k: nat)
    ensures (k + 1) * LIMIT < n + LIMIT <==> k < PageCount(n)
  {
    if n > 0 {
      var q := (n - 1) / LIMIT;
      assert q * LIMIT <= n - 1 < (q + 1) * LIMIT;
      if k <= q {
        assert k * LIMIT <= q * LIMIT;
      } else {
        assert k * LIMIT >= (q + 1) * LIMIT;
      }
    }
  }

  /** The pages are exactly the multiples of LIMIT that `xrange(LIMIT, n + LIMIT, LIMIT)` produces. */
  lemma PageLimitsAreXRange(n: int, lim: int)
    ensures lim in PageLimits(n) <==> LIMIT <= lim < n + LIMIT && lim % LIMIT == 0
  {
    var lims := PageLimits(n);
    if LIMIT <= lim < n + LIMIT && lim % LIMIT == 0 {
      var k := lim / LIMIT - 1;
      assert lim == (k + 1) * LIMIT;
      PageLoopTest(n, k);
      assert lims[k] == lim;
    }
    if lim in lims {
      var k :| 0 <= k < |lims| && lims[k] == lim;
      PageLoopTest(n, k);
    }
  }

  /** Whether an object id falls in the page ending at `lim`. */
  predicate InPage(lim: int, id: int) {
    lim - LIMIT < id <= lim
  }

  /**
   * The pages partition the ids: the first starts at 0, each starts where
   * the previous ended, each starts below `n`, and the last reaches `n`.
   * There are none when `n <= 0`.
   */
  lemma PagesContiguous(n: int)
    ensures n <= 0 <==> PageLimits(n) == []
    ensures PageLimits(n) != [] ==> PageLimits(n)[0] - LIMIT == 0
    ensures forall k | 0 < k < |PageLimits(n)| :: PageLimits(n)[k] - LIMIT == PageLimits(n)[k - 1]
    ensures forall k | 0 <= k < |PageLimits(n)| :: PageLimits(n)[k] - LIMIT < n
    ensures PageLimits(n) != [] ==> PageLimits(n)[|PageLimits(n)| - 1] >= n
  {
    var lims := PageLimits(n);
    forall k | 0 <= k < |lims| ensures lims[k] - LIMIT < n {
      PageLoopTest(n, k);
    }
    if lims != [] {
      var last := |lims| - 1;
      PageLoopTest(n, last + 1);
    }
  }

  /** Every id in `1..n` lies in exactly one page, the `(id - 1) / LIMIT`-th. */
  lemma PageOfId(n: int, id: int, k: nat)
    requires 1 <= id <= n
    ensures k < |PageLimits(n)| && InPage(PageLimits(n)[k], id) <==> k == (id - 1) / LIMIT
  {
    var lims := PageLimits(n);
    var q := (id - 1) / LIMIT;
    assert q * LIMIT <= id - 1 < (q + 1) * LIMIT;
    PageLoopTest(n, q);
    assert q * LIMIT < n;
    if k < |lims| && InPage(lims[k], id) {
      assert k * LIMIT < id <= (k + 1) * LIMIT;
    }
  }
}
