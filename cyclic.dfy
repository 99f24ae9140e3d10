/** The rotating counters of the renderer: the sub-pixel jitter index
    (period 16), the blue-noise tile index (period 64) and the two ping-pong
    indices (period 2) all advance by `(i + 1) % period`. This module states
    once what such an advance does over many frames. */
module Cyclic {

  /** The number of blue-noise dither tiles both light-map passes rotate through. */
  const BLUE_NOISE_TILES: nat := 64

  /** One advance, `(i + 1) % period`. */
  function Next(i: nat, period: nat): (j: nat)
    requires period > 0
    ensures j < period
    ensures i < period ==> (j == i + 1 || (i == period - 1 && j == 0))
  {
    (i + 1) % period
  }

  /** `n` successive advances starting from `i`. */
  function Iterate(i: nat, n: nat, period: nat): nat
    requires period > 0
  {
    if n == 0 then i else Next(Iterate(i, n - 1, period), period)
  }

  /** After `n` advances a counter that starts in range sits at `(i + n) % period`. */
  lemma {:induction false} IterateIsOffset(i: nat, n: nat, period: nat)
    requires i < period
    ensures Iterate(i, n, period) == (i + n) % period
  {
    if n == 0 {
      ModUnique(i, 0, i, period);
    } else {
      IterateIsOffset(i, n - 1, period);
      ModSucc(i + n - 1, period);
    }
  }

  /** Advancing the remainder is taking the remainder of the successor. */
  lemma ModSucc(x: nat, period: nat)
    requires period > 0
    ensures ((x % period) + 1) % period == (x + 1) % period
  {
    var q, r := x / period, x % period;
    assert x == q * period + r;
    if r + 1 < period {
      ModUnique(x + 1, q, r + 1, period);
      ModUnique(r + 1, 0, r + 1, period);
    } else {
      MulSucc(q, period);
      ModUnique(x + 1, q + 1, 0, period);
      ModUnique(r + 1, 1, 0, period);
    }
  }

  lemma MulSucc(a: int, p: int)
    ensures (a + 1) * p == a * p + p
  {
  }

  /** The remainder is the unique `r` in range with `x == q * period + r`. */
  lemma ModUnique(x: int, q: int, r: int, period: int)
    requires period > 0 && 0 <= r < period && x == q * period + r
    ensures x % period == r
  {
    var q', r' := x / period, x % period;
    assert x == q' * period + r';
    MulSub(q, q', period);
    assert (q - q') * period == r' - r;
    if q > q' {
      MulAtLeast(q - q', period);
    } else if q < q' {
      MulAtLeast(q' - q, period);
      MulSub(q', q, period);
    }
  }

  lemma MulSub(a: int, b: int, p: int)
    ensures (a - b) * p == a * p - b * p
  {
  }

  lemma MulAtLeast(a: int, p: int)
    requires a >= 1 && p > 0
    ensures a * p >= p
  {
  }

  /** A counter in range returns to where it started after exactly `period` advances ... */
  lemma ReturnsAfterPeriod(i: nat, period: nat)
    requires i < period
    ensures Iterate(i, period, period) == i
  {
    IterateIsOffset(i, period, period);
    ModUnique(i + period, 1, i, period);
  }

  /** ... and not earlier: every advance count strictly between 0 and the
      period leaves it somewhere else. */
  lemma NotBeforePeriod(i: nat, n: nat, period: nat)
    requires i < period && 0 < n < period
    ensures Iterate(i, n, period) != i
  {
    IterateIsOffset(i, n, period);
    if i + n < period {
      ModUnique(i + n, 0, i + n, period);
    } else {
      ModUnique(i + n, 1, i + n - period, period);
    }
  }

  /** Advancing `m` times and then `k` times is advancing `m + k` times. */
  lemma {:induction false} IterateAdds(i: nat, m: nat, k: nat, period: nat)
    requires period > 0
    ensures Iterate(i, m + k, period) == Iterate(Iterate(i, m, period), k, period)
  {
    if k > 0 {
      IterateAdds(i, m, k - 1, period);
    }
  }

  /** Two counters that differ by fewer than `period` advances hold
      different values: the counter visits `period` distinct values in a row. */
  lemma DistinctWithinPeriod(i: nat, m: nat, n: nat, period: nat)
    requires i < period && m < n < m + period
    ensures Iterate(i, m, period) != Iterate(i, n, period)
  {
    IterateAdds(i, m, n - m, period);
    IterateIsOffset(i, m, period);
    NotBeforePeriod(Iterate(i, m, period), n - m, period);
  }

  /** A ping-pong index flips on each advance and is restored by two. */
  lemma PingPong(i: nat)
    requires i < 2
    ensures Next(i, 2) == 1 - i
    ensures Next(Next(i, 2), 2) == i
  {
  }
}
