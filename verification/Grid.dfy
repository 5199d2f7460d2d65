/** Arithmetic of a grid of equal cells laid from an anchor. */
module Grid {
  /** Start of the `k`-th cell. */
  function CellAt(anchor: int, k: int, period: int): int {
    anchor + k * period
  }

  /** Number of the cell that holds time `t`. */
  function CellIndex(anchor: int, t: int, period: int): (k: int)
    requires period > 0
    ensures CellAt(anchor, k, period) <= t < CellAt(anchor, k, period) + period
  {
    (t - anchor) / period
  }

  /** Start of the cell that holds time `t`. */
  function CellStart(anchor: int, t: int, period: int): (start: int)
    requires period > 0
    ensures start <= t < start + period
    ensures anchor <= t ==> anchor <= start
  {
    var k := CellIndex(anchor, t, period);
    CellBound(k, t - anchor, period);
    CellAt(anchor, k, period)
  }

  lemma CellBound(k: int, t: int, period: int)
    requires period > 0 && k == t / period
    ensures 0 <= t ==> 0 <= k * period
  {
    if 0 <= t {
      assert 0 <= k;
    }
  }

  /** A larger index means a start at least one whole period later. */
  lemma {:induction false} CellsApart(anchor: int, j: int, k: int, period: int)
    requires period > 0 && j < k
    ensures CellAt(anchor, j, period) + period <= CellAt(anchor, k, period)
  {
    assert CellAt(anchor, k, period) - CellAt(anchor, j, period) == (k - j) * period;
    assert (k - j) * period == period + (k - j - 1) * period;
    assert 0 <= (k - j - 1) * period;
  }

  /** The cell holding `t` is the only one. */
  lemma {:induction false} CellUnique(anchor: int, t: int, period: int, k: int)
    requires period > 0
    requires CellAt(anchor, k, period) <= t < CellAt(anchor, k, period) + period
    ensures CellIndex(anchor, t, period) == k
    ensures CellStart(anchor, t, period) == CellAt(anchor, k, period)
  {
    var j := CellIndex(anchor, t, period);
    if j < k {
      CellsApart(anchor, j, k, period);
    } else if k < j {
      CellsApart(anchor, k, j, period);
    }
  }

  /** Re-anchoring a grid at one of its own cells changes no cell. */
  lemma {:induction false} CellStartReanchored(anchor: int, t1: int, t2: int, period: int)
    requires period > 0
    ensures CellStart(CellStart(anchor, t1, period), t2, period) == CellStart(anchor, t2, period)
  {
    var j := CellIndex(anchor, t1, period);
    var start := CellStart(anchor, t1, period);
    var k := CellIndex(start, t2, period);
    assert CellAt(start, k, period) == CellAt(anchor, j + k, period);
    CellUnique(anchor, t2, period, j + k);
  }

  /** A cell that meets a stretch of whole cells lies inside it. */
  lemma {:induction false} CellWithin(anchor: int, t: int, period: int, first: int, last: int)
    requires period > 0
    requires CellAt(anchor, first, period) <= t < CellAt(anchor, last, period)
    ensures CellAt(anchor, first, period) <= CellStart(anchor, t, period)
    ensures CellStart(anchor, t, period) + period <= CellAt(anchor, last, period)
  {
    var k := CellIndex(anchor, t, period);
    if k < first {
      CellsApart(anchor, k, first, period);
    } else if first < k {
      CellsApart(anchor, first, k, period);
    }
    if last <= k {
      if last < k {
        CellsApart(anchor, last, k, period);
      }
    } else {
      CellsApart(anchor, k, last, period);
    }
  }

  /** A cell of a grid `n` times coarser is `n` consecutive fine cells. */
  lemma CoarseCell(anchor: int, k: int, period: int, n: int)
    ensures CellAt(anchor, k, n * period) == CellAt(anchor, k * n, period)
    ensures CellAt(anchor, k, n * period) + n * period == CellAt(anchor, k * n + n, period)
  {
    assert k * (n * period) == (k * n) * period;
    assert (k * n + n) * period == (k * n) * period + n * period;
  }

  /** A cell lies inside the cell of a grid `n` times coarser. */
  lemma {:induction false} CellNested(anchor: int, t: int, period: int, n: int)
    requires period > 0 && n * period > 0
    ensures CellStart(anchor, t, n * period) <= CellStart(anchor, t, period)
    ensures CellStart(anchor, t, period) + period <= CellStart(anchor, t, n * period) + n * period
  {
    var coarse := n * period;
    var k := CellIndex(anchor, t, coarse);
    CoarseCell(anchor, k, period, n);
    CellWithin(anchor, t, period, k * n, k * n + n);
  }
}
