/**
 The per-channel statistics around the clustering step: whitening (divide a
 column by its standard deviation) and the standard deviations themselves.
 A standard deviation is characterised rather than computed: `sd` is the
 standard deviation of `xs` with `ddof` degrees of freedom removed when it is
 non-negative and its square is the sum of squared deviations from the mean
 divided by `|xs| - ddof`. `whiten` uses ddof 0 (population); pandas'
 `DataFrame.std` uses ddof 1 (sample).
 */
module Stats {

  function Total(xs: seq<real>): real
    decreases |xs|
  {
    if |xs| == 0 then 0.0 else Total(xs[..|xs| - 1]) + xs[|xs| - 1]
  }

  function Mean(xs: seq<real>): real
    requires |xs| > 0
  {
    Total(xs) / |xs| as real
  }

  /** The sum of (x - m)^2 over `xs`. */
  function SquaredDeviation(xs: seq<real>, m: real): real
    decreases |xs|
  {
    if |xs| == 0 then 0.0
    else SquaredDeviation(xs[..|xs| - 1], m) + (xs[|xs| - 1] - m) * (xs[|xs| - 1] - m)
  }

  ghost predicate IsStd(xs: seq<real>, sd: real, ddof: nat)
    requires |xs| > ddof
  {
    sd >= 0.0 && sd * sd == SquaredDeviation(xs, Mean(xs)) / (|xs| - ddof) as real
  }

  /** The population standard deviation is the sample one scaled by
      sqrt((n - 1) / n): the two agree only when the column is constant, and
      otherwise the sample standard deviation is strictly larger. */
  lemma PopulationStdBelowSampleStd(xs: seq<real>, pop: real, smp: real)
    requires |xs| >= 2
    requires IsStd(xs, pop, 0) && IsStd(xs, smp, 1)
    ensures pop * pop * |xs| as real == smp * smp * (|xs| - 1) as real
    ensures smp > 0.0 ==> pop < smp
  {
    var n := |xs| as real;
    var d := SquaredDeviation(xs, Mean(xs));
    Unscale(pop * pop, d, n);
    Unscale(smp * smp, d, n - 1.0);
    if smp > 0.0 {
      RootsOrdered(pop, smp, n);
    }
  }

  /** Multiplying a quotient back by its divisor. */
  lemma Unscale(x: real, d: real, n: real)
    requires n > 0.0 && x == d / n
    ensures x * n == d
  {
  }

  /** If pop^2 n = smp^2 (n - 1) with n >= 2, the non-negative root pop lies
      strictly below the positive root smp. */
  lemma RootsOrdered(pop: real, smp: real, n: real)
    requires pop >= 0.0 && smp > 0.0 && n >= 2.0
    requires pop * pop * n == smp * smp * (n - 1.0)
    ensures pop < smp
  {
    SquaresOrdered(pop, smp, n);
    SquareRootsOrdered(pop, smp);
  }

  /** Of two non-negative numbers, the one with the smaller square is smaller. */
  lemma SquareRootsOrdered(x: real, y: real)
    requires x >= 0.0 && y > 0.0 && x * x < y * y
    ensures x < y
  {
    assert (y - x) * (y + x) == y * y - x * x;
    PositiveFactor(y - x, y + x);
  }

  /** x^2 n = y^2 (n - 1) with y > 0 and n > 0 forces x^2 < y^2. The squares
      are kept as products of the parameters throughout: naming a square
      hides its sign from the solver. */
  lemma SquaresOrdered(x: real, y: real, n: real)
    requires y > 0.0 && n > 0.0
    requires x * x * n == y * y * (n - 1.0)
    ensures x * x < y * y
  {
    MulPositive(y, y);
    calc {
      x * x * n;
      y * y * (n - 1.0);
      y * y * n - y * y;
    <
      y * y * n;
    }
    CancelFactor(x, y, n);
  }

  /** A positive common factor n cancels from a strict inequality of squares. */
  lemma CancelFactor(x: real, y: real, n: real)
    requires n > 0.0 && x * x * n < y * y * n
    ensures x * x < y * y
  {
    calc {
      x * x;
      (x * x * n) / n;
    <
      (y * y * n) / n;
      y * y;
    }
  }

  /** A positive product with a positive second factor has a positive first one. */
  lemma PositiveFactor(x: real, y: real)
    requires y > 0.0 && x * y > 0.0
    ensures x > 0.0
  {
    assert x == (x * y) / y;
  }

  lemma MulPositive(x: real, y: real)
    requires x > 0.0 && y > 0.0
    ensures x * y > 0.0
  {
  }

  /** `whiten` applied to one column: every value divided by the column's
      standard deviation. Multiplying back by that deviation recovers it. */
  function Whiten(xs: seq<real>, sd: real): (ws: seq<real>)
    requires sd > 0.0
    ensures |ws| == |xs|
    ensures forall i :: 0 <= i < |xs| ==> ws[i] * sd == xs[i]
  {
    seq(|xs|, i requires 0 <= i < |xs| => xs[i] / sd)
  }
}
