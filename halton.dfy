/** The sub-pixel jitter sequence of the renderer (src/renderer/mod.rs):
    `halton(base, index)`, the base-`base` radical inverse computed by a
    digit loop, and the 16-entry table of offsets built from bases 2 and 3.
    `f32` arithmetic is modelled over the reals. */
module Halton {
  import Cyclic

  /** NUM_SUBPIXEL_JITTER_SAMPLES */
  const NUM_SUBPIXEL_JITTER_SAMPLES: nat := 16

  /** The radical inverse: the base-`base` digits of `index` mirrored about
      the radix point, `d0 / b + d1 / b^2 + ...`. */
  function RadicalInverse(base: nat, index: nat): real
    requires base >= 2
    decreases index
  {
    if index == 0 then 0.0
    else ((index % base) as real + RadicalInverse(base, index / base)) / base as real
  }

  /** `halton(base, index)`: peels digits off `i` from the least significant
      end, scaling each by a shrinking factor `f`. A base below 2 would divide
      by zero or never make progress, so callers pass 2 and 3. The ghost `ri`
      is the radical inverse of what is left of the index. */
  method Halton(base: nat, index: nat) returns (r: real)
    requires base >= 2
    ensures r == RadicalInverse(base, index)
  {
    var f := 1.0;
    r := 0.0;
    var i: nat := index;
    ghost var ri := RadicalInverse(base, index);
    while i > 0
      invariant ri == RadicalInverse(base, i)
      invariant Accumulated(r, f, ri) == RadicalInverse(base, index)
      decreases i
    {
      var b := base as real;
      var digit := (i % base) as real;
      ghost var rest := RadicalInverse(base, i / base);
      Unfold(base, i);
      DivShrinks(base, i);
      var f' := f / b;
      var r' := r + f' * digit;
      DigitStep(r, f, b, digit, rest, ri, r', f');
      f, r, i, ri := f', r', i / base, rest;
    }
  }

  /** The digits already taken plus the scaled radical inverse of the rest. */
  function Accumulated(r: real, f: real, ri: real): real {
    r + f * ri
  }

  lemma DivShrinks(base: nat, i: nat)
    requires base >= 2 && i > 0
    ensures 0 <= i / base < i
  {
  }

  lemma Unfold(base: nat, i: nat)
    requires base >= 2 && i > 0
    ensures RadicalInverse(base, i) == ((i % base) as real + RadicalInverse(base, i / base)) / base as real
  {
  }

  /** One loop step in plain algebra: when `ri == (digit + rest) / b`, moving
      `digit` into `r` with the factor `f / b` keeps the accumulated value. */
  lemma DigitStep(r: real, f: real, b: real, digit: real, rest: real, ri: real, r': real, f': real)
    requires b > 0.0 && ri == (digit + rest) / b
    requires f' == f / b && r' == r + f' * digit
    ensures Accumulated(r', f', rest) == Accumulated(r, f, ri)
  {
  }

  /** The radical inverse lies in [0, 1). */
  lemma {:induction false} RadicalInverseBounds(base: nat, index: nat)
    requires base >= 2
    ensures 0.0 <= RadicalInverse(base, index) < 1.0
    decreases index
  {
    if index > 0 {
      DivShrinks(base, index);
      RadicalInverseBounds(base, index / base);
      var d := index % base;
      assert (d as real) <= (base as real) - 1.0;
      DivBelowOne((d as real) + RadicalInverse(base, index / base), base as real);
    }
  }

  lemma DivBelowOne(a: real, b: real)
    requires 0.0 <= a < b
    ensures 0.0 <= a / b < 1.0
  {
  }

  lemma DivCancel(a: real, c: real, b: real)
    requires b > 0.0 && a / b == c / b
    ensures a == c
  {
    assert a == (a / b) * b;
    assert c == (c / b) * b;
  }

  /** A whole part and a fraction in [0, 1) are determined by their sum. */
  lemma SameDigit(di: int, dj: int, ri: real, rj: real)
    requires 0.0 <= ri < 1.0 && 0.0 <= rj < 1.0
    requires di as real + ri == dj as real + rj
    ensures di == dj && ri == rj
  {
  }

  /** It is zero exactly for index 0. */
  lemma {:induction false} RadicalInverseZeroIff(base: nat, index: nat)
    requires base >= 2
    ensures RadicalInverse(base, index) == 0.0 <==> index == 0
    decreases index
  {
    if index > 0 {
      RadicalInverseBounds(base, index / base);
      if index % base == 0 {
        assert index / base > 0;
        DivShrinks(base, index);
        RadicalInverseZeroIff(base, index / base);
      }
    }
  }

  /** Different indices have different radical inverses: the digits of the
      result determine the digits of the index. */
  lemma {:induction false} RadicalInverseInjective(base: nat, i: nat, j: nat)
    requires base >= 2
    requires RadicalInverse(base, i) == RadicalInverse(base, j)
    ensures i == j
    decreases i + j
  {
    if i == 0 || j == 0 {
      RadicalInverseZeroIff(base, i);
      RadicalInverseZeroIff(base, j);
    } else {
      SameLowDigit(base, i, j);
      DivShrinks(base, i);
      DivShrinks(base, j);
      RadicalInverseInjective(base, i / base, j / base);
      Reassemble(base, i, j);
    }
  }

  /** Equal radical inverses of non-zero indices share their lowest digit and
      the radical inverse of the remaining digits. */
  lemma SameLowDigit(base: nat, i: nat, j: nat)
    requires base >= 2 && i > 0 && j > 0
    requires RadicalInverse(base, i) == RadicalInverse(base, j)
    ensures i % base == j % base
    ensures RadicalInverse(base, i / base) == RadicalInverse(base, j / base)
  {
    DivShrinks(base, i);
    DivShrinks(base, j);
    Unfold(base, i);
    Unfold(base, j);
    RadicalInverseBounds(base, i / base);
    RadicalInverseBounds(base, j / base);
    Peel(base as real, i % base, j % base, RadicalInverse(base, i / base), RadicalInverse(base, j / base));
  }

  /** In plain algebra: `(d + r) / b` with a whole `d` and `r` in [0, 1)
      determines both `d` and `r`. */
  lemma Peel(b: real, di: int, dj: int, ri: real, rj: real)
    requires b > 0.0 && 0.0 <= ri < 1.0 && 0.0 <= rj < 1.0
    requires (di as real + ri) / b == (dj as real + rj) / b
    ensures di == dj && ri == rj
  {
    DivCancel(di as real + ri, dj as real + rj, b);
    SameDigit(di, dj, ri, rj);
  }

  /** An index is determined by its lowest digit and the rest. */
  lemma Reassemble(base: nat, i: nat, j: nat)
    requires base >= 2 && i % base == j % base && i / base == j / base
    ensures i == j
  {
    DivMod(base, i);
    DivMod(base, j);
  }

  lemma DivMod(base: nat, i: nat)
    requires base >= 2
    ensures i == (i / base) * base + i % base
  {
  }

  /** The worked values halton(2,1) = 1/2, halton(2,2) = 1/4, halton(2,3) = 3/4
      and halton(3,1) = 1/3, halton(3,2) = 2/3, halton(3,3) = 1/9. */
  lemma FirstValues()
    ensures RadicalInverse(2, 1) == 0.5 && RadicalInverse(2, 2) == 0.25 && RadicalInverse(2, 3) == 0.75
    ensures RadicalInverse(3, 1) == 1.0 / 3.0 && RadicalInverse(3, 2) == 2.0 / 3.0
    ensures RadicalInverse(3, 3) == 1.0 / 9.0
  {
    assert RadicalInverse(2, 0) == 0.0;
    assert RadicalInverse(2, 1) == 0.5;
    assert RadicalInverse(2, 2) == (0.0 + RadicalInverse(2, 1)) / 2.0;
    assert RadicalInverse(2, 3) == (1.0 + RadicalInverse(2, 1)) / 2.0;
    assert RadicalInverse(3, 1) == 1.0 / 3.0;
    assert RadicalInverse(3, 3) == (0.0 + RadicalInverse(3, 1)) / 3.0;
  }

  /** A sub-pixel offset, in pixels. */
  datatype Jitter = Jitter(x: real, y: real)

  /** The `i`-th entry of the jitter table: the base-2 and base-3 radical
      inverses of `i + 1`, each moved by half a pixel towards the origin. */
  function JitterSample(i: nat): Jitter {
    Jitter(Offset(2, i + 1), Offset(3, i + 1))
  }

  /** One coordinate of a table entry: a radical inverse shifted by half a pixel. */
  function Offset(base: nat, n: nat): real
    requires base >= 2
  {
    RadicalInverse(base, n) - 0.5
  }

  /** Whether `t` is the table the renderer builds at construction. */
  ghost predicate IsJitterTable(t: seq<Jitter>) {
    |t| == NUM_SUBPIXEL_JITTER_SAMPLES &&
    forall i :: 0 <= i < |t| ==> t[i] == JitterSample(i)
  }

  /** The jitter table as a value. */
  ghost function JitterTable(): seq<Jitter> {
    seq(NUM_SUBPIXEL_JITTER_SAMPLES, i requires 0 <= i => JitterSample(i))
  }

  /** There is one jitter table: any table meeting the description is it. */
  lemma JitterTableUnique(t: seq<Jitter>)
    requires IsJitterTable(t)
    ensures t == JitterTable()
  {
  }

  /** The table the renderer builds at construction: entry `i` from the
      base-2 and base-3 sequences at index `i + 1`, each shifted by -0.5. */
  method BuildJitterSamples() returns (t: seq<Jitter>)
    ensures IsJitterTable(t)
  {
    t := [];
    for i := 0 to NUM_SUBPIXEL_JITTER_SAMPLES
      invariant |t| == i
      invariant forall k :: 0 <= k < i ==> t[k] == JitterSample(k)
    {
      var hx := Halton(2, i + 1);
      var hy := Halton(3, i + 1);
      var sample := Jitter(hx - 0.5, hy - 0.5);
      assert sample == JitterSample(i);
      t := t + [sample];
    }
  }

  /** Every offset lies strictly inside the pixel, (-0.5, 0.5) on each axis. */
  lemma JitterInsidePixel(i: nat)
    ensures -0.5 < JitterSample(i).x < 0.5 && -0.5 < JitterSample(i).y < 0.5
  {
    RadicalInverseBounds(2, i + 1);
    RadicalInverseBounds(3, i + 1);
    RadicalInverseZeroIff(2, i + 1);
    RadicalInverseZeroIff(3, i + 1);
  }

  /** No two table entries coincide, on either axis. */
  lemma JitterDistinct(i: nat, j: nat)
    requires i != j
    ensures JitterSample(i).x != JitterSample(j).x && JitterSample(i).y != JitterSample(j).y
  {
    DistinctIndices(2, i + 1, j + 1);
    DistinctIndices(3, i + 1, j + 1);
  }

  /** Injectivity read the other way round, for the shifted coordinates. */
  lemma DistinctIndices(base: nat, i: nat, j: nat)
    requires base >= 2
    ensures i != j ==> Offset(base, i) != Offset(base, j)
  {
    if i != j && RadicalInverse(base, i) == RadicalInverse(base, j) {
      RadicalInverseInjective(base, i, j);
    }
  }

  /** The offset used `n` frames after a frame that used entry `start`. */
  function JitterAfter(start: nat, n: nat): Jitter {
    JitterSample(Cyclic.Iterate(start, n, NUM_SUBPIXEL_JITTER_SAMPLES))
  }

  /** The jitter sequence is periodic with period exactly 16: it repeats after
      16 frames, and any 16 consecutive frames use 16 different offsets. */
  lemma JitterPeriodIsSixteen(start: nat, m: nat, n: nat)
    requires start < NUM_SUBPIXEL_JITTER_SAMPLES
    ensures JitterAfter(start, m + NUM_SUBPIXEL_JITTER_SAMPLES) == JitterAfter(start, m)
    ensures m < n < m + NUM_SUBPIXEL_JITTER_SAMPLES ==> JitterAfter(start, m) != JitterAfter(start, n)
  {
    var p := NUM_SUBPIXEL_JITTER_SAMPLES;
    Cyclic.IterateAdds(start, m, p, p);
    Cyclic.IterateIsOffset(start, m, p);
    Cyclic.ReturnsAfterPeriod(Cyclic.Iterate(start, m, p), p);
    if m < n < m + p {
      Cyclic.DistinctWithinPeriod(start, m, n, p);
      JitterDistinct(Cyclic.Iterate(start, m, p), Cyclic.Iterate(start, n, p));
    }
  }
}
