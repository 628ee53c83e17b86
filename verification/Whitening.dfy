/**
  Whitening by statistics over all ranks, `distributed_masked_whiten` of `miles/utils/distributed_utils.py`.

  The reference is the data of all ranks in one list: its mean, and its squared deviations from that mean.
 */
module Whitening {
  import opened Arith
  import opened Options

  /** One rank's values and mask, of the same shape. */
  datatype Local = Local(values: seq<real>, mask: seq<real>) {
    ghost predicate Valid() {
      |values| == |mask| && forall i :: 0 <= i < |mask| ==> mask[i] >= 0.0
    }
  }

  ghost predicate AllValid(ranks: seq<Local>) {
    forall r :: 0 <= r < |ranks| ==> ranks[r].Valid()
  }

  // ---------------------------------------------------------------- sums

  function Total(s: seq<real>): real {
    if s == [] then 0.0 else Total(s[..|s| - 1]) + s[|s| - 1]
  }

  function Times(x: real, m: real): real { x * m }

  /** `values * mask` */
  function Masked(values: seq<real>, mask: seq<real>): (r: seq<real>)
    requires |values| == |mask|
    ensures |r| == |values| && forall i :: 0 <= i < |r| ==> r[i] == Times(values[i], mask[i])
  {
    seq(|values|, i requires 0 <= i < |values| => Times(values[i], mask[i]))
  }

  /** `values ** 2` */
  function Squares(values: seq<real>): (r: seq<real>)
    ensures |r| == |values| && forall i :: 0 <= i < |r| ==> r[i] == Times(values[i], values[i])
  {
    seq(|values|, i requires 0 <= i < |values| => Times(values[i], values[i]))
  }

  lemma MaskedConcat(a: seq<real>, m: seq<real>, b: seq<real>, n: seq<real>)
    requires |a| == |m| && |b| == |n|
    ensures Masked(a + b, m + n) == Masked(a, m) + Masked(b, n)
  {
    forall i | 0 <= i < |a| + |b| ensures Masked(a + b, m + n)[i] == (Masked(a, m) + Masked(b, n))[i] {
      if i < |a| {
        assert (a + b)[i] == a[i] && (m + n)[i] == m[i];
      } else {
        assert (a + b)[i] == b[i - |a|] && (m + n)[i] == n[i - |a|];
      }
    }
  }

  lemma SquaresConcat(a: seq<real>, b: seq<real>)
    ensures Squares(a + b) == Squares(a) + Squares(b)
  {
    forall i | 0 <= i < |a| + |b| ensures Squares(a + b)[i] == (Squares(a) + Squares(b))[i] {
      if i < |a| {
        assert (a + b)[i] == a[i];
      } else {
        assert (a + b)[i] == b[i - |a|];
      }
    }
  }

  /** The three sums a rank contributes to the all-reduce. */
  datatype Stats = Stats(sum: real, sumSq: real, maskSum: real) {
    function Plus(s: Stats): Stats { Stats(sum + s.sum, sumSq + s.sumSq, maskSum + s.maskSum) }
  }

  function StatsOf(values: seq<real>, mask: seq<real>): Stats
    requires |values| == |mask|
  {
    Stats(Total(Masked(values, mask)), Total(Masked(Squares(values), mask)), Total(mask))
  }

  lemma {:induction false} TotalConcat(a: seq<real>, b: seq<real>)
    ensures Total(a + b) == Total(a) + Total(b)
  {
    if b == [] {
      assert a + b == a;
    } else {
      var n := |b| - 1;
      assert (a + b)[..|a + b| - 1] == a + b[..n];
      TotalConcat(a, b[..n]);
    }
  }

  lemma {:induction false} TotalNonNegative(s: seq<real>)
    requires forall i :: 0 <= i < |s| ==> s[i] >= 0.0
    ensures Total(s) >= 0.0
  {
    if s != [] { TotalNonNegative(s[..|s| - 1]); }
  }

  /** `x` is the combination of `b`, `c` and `d` with these coefficients. */
  ghost predicate Combines(x: real, p: real, b: real, q: real, c: real, r: real, d: real) {
    x == p * b + q * c + r * d
  }

  lemma CombinesAdd(x: real, y: real, p: real, b: real, b': real, q: real, c: real, c': real, r: real, d: real,
                    d': real)
    requires Combines(x, p, b, q, c, r, d) && Combines(y, p, b', q, c', r, d')
    ensures Combines(x + y, p, b + b', q, c + c', r, d + d')
  {
  }

  /** What holds of every element holds of the sums. */
  lemma {:induction false} TotalCombines(x: seq<real>, p: real, b: seq<real>, q: real, c: seq<real>, r: real,
                                         d: seq<real>)
    requires |x| == |b| == |c| == |d|
    requires forall i :: 0 <= i < |x| ==> Combines(x[i], p, b[i], q, c[i], r, d[i])
    ensures Combines(Total(x), p, Total(b), q, Total(c), r, Total(d))
  {
    if x != [] {
      var n := |x| - 1;
      TotalCombines(x[..n], p, b[..n], q, c[..n], r, d[..n]);
      assert Combines(x[n], p, b[n], q, c[n], r, d[n]);
      CombinesAdd(Total(x[..n]), x[n], p, Total(b[..n]), b[n], q, Total(c[..n]), c[n], r, Total(d[..n]), d[n]);
    }
  }

  // ---------------------------------------------------------------- all ranks together

  function WholeValues(ranks: seq<Local>): seq<real> {
    if ranks == [] then [] else WholeValues(ranks[..|ranks| - 1]) + ranks[|ranks| - 1].values
  }

  function WholeMask(ranks: seq<Local>): seq<real> {
    if ranks == [] then [] else WholeMask(ranks[..|ranks| - 1]) + ranks[|ranks| - 1].mask
  }

  lemma {:induction false} WholeIsValid(ranks: seq<Local>)
    requires AllValid(ranks)
    ensures Local(WholeValues(ranks), WholeMask(ranks)).Valid()
  {
    if ranks != [] { WholeIsValid(ranks[..|ranks| - 1]); }
  }

  lemma MaskedTotal(a: seq<real>, m: seq<real>, b: seq<real>, n: seq<real>)
    requires |a| == |m| && |b| == |n|
    ensures Total(Masked(a + b, m + n)) == Total(Masked(a, m)) + Total(Masked(b, n))
  {
    MaskedConcat(a, m, b, n);
    TotalConcat(Masked(a, m), Masked(b, n));
  }

  lemma OneMoreRank(values: seq<real>, mask: seq<real>, l: Local)
    requires |values| == |mask| && |l.values| == |l.mask|
    ensures StatsOf(values + l.values, mask + l.mask) == StatsOf(values, mask).Plus(StatsOf(l.values, l.mask))
  {
    TotalConcat(mask, l.mask);
    MaskedTotal(values, mask, l.values, l.mask);
    SquaresConcat(values, l.values);
    MaskedTotal(Squares(values), mask, Squares(l.values), l.mask);
  }

  /** The all-reduce: the contributions of all ranks are the statistics of the whole data. */
  method AllReduce(ranks: seq<Local>) returns (s: Stats)
    requires AllValid(ranks)
    ensures |WholeValues(ranks)| == |WholeMask(ranks)| && s == StatsOf(WholeValues(ranks), WholeMask(ranks))
  {
    s := Stats(0.0, 0.0, 0.0);
    for r := 0 to |ranks|
      invariant |WholeValues(ranks[..r])| == |WholeMask(ranks[..r])|
      invariant s == StatsOf(WholeValues(ranks[..r]), WholeMask(ranks[..r]))
    {
      s := s.Plus(StatsOf(ranks[r].values, ranks[r].mask));
      OneMoreRank(WholeValues(ranks[..r]), WholeMask(ranks[..r]), ranks[r]);
      assert ranks[..r + 1][..r] == ranks[..r];
    }
    assert ranks[..|ranks|] == ranks;
  }

  // ---------------------------------------------------------------- mean and variance

  function Shifted(values: seq<real>, mean: real): (r: seq<real>)
    ensures |r| == |values| && forall i :: 0 <= i < |r| ==> r[i] == values[i] - mean
  {
    seq(|values|, i requires 0 <= i < |values| => values[i] - mean)
  }

  /** The sum of the squared deviations of the unmasked values. */
  function Deviations(values: seq<real>, mask: seq<real>, mean: real): real
    requires |values| == |mask|
  {
    Total(Masked(Squares(Shifted(values, mean)), mask))
  }

  lemma ExpandSquare(x: real, m: real, mean: real)
    ensures Combines(Times(Times(x - mean, x - mean), m), 1.0, Times(Times(x, x), m), -2.0 * mean, Times(x, m),
                     mean * mean, m)
  {
    assert (x - mean) * (x - mean) == x * x - 2.0 * mean * x + mean * mean;
  }

  lemma {:induction false} DeviationsExpand(values: seq<real>, mask: seq<real>, mean: real)
    requires |values| == |mask|
    ensures var s := StatsOf(values, mask);
      Combines(Deviations(values, mask, mean), 1.0, s.sumSq, -2.0 * mean, s.sum, mean * mean, s.maskSum)
  {
    var x, b, c := Masked(Squares(Shifted(values, mean)), mask), Masked(Squares(values), mask), Masked(values, mask);
    forall i | 0 <= i < |x| ensures Combines(x[i], 1.0, b[i], -2.0 * mean, c[i], mean * mean, mask[i]) {
      ExpandSquare(values[i], mask[i], mean);
    }
    TotalCombines(x, 1.0, b, -2.0 * mean, c, mean * mean, mask);
  }

  lemma SquareNonNegative(x: real, m: real)
    requires m >= 0.0
    ensures Times(Times(x, x), m) >= 0.0
  {
    assert x * x >= 0.0;
  }

  lemma DeviationsNonNegative(values: seq<real>, mask: seq<real>, mean: real)
    requires Local(values, mask).Valid()
    ensures Deviations(values, mask, mean) >= 0.0
  {
    var x := Masked(Squares(Shifted(values, mean)), mask);
    forall i | 0 <= i < |x| ensures x[i] >= 0.0 { SquareNonNegative(values[i] - mean, mask[i]); }
    TotalNonNegative(x);
  }

  function Mean(s: Stats): real
    requires s.maskSum != 0.0
  {
    s.sum / s.maskSum
  }

  function MeanSquare(s: Stats): real
    requires s.maskSum != 0.0
  {
    s.sumSq / s.maskSum
  }

  function LessSquare(square: real, mean: real): real {
    square - mean * mean
  }

  /** Mean square less squared mean. */
  function Biased(s: Stats): real
    requires s.maskSum != 0.0
  {
    LessSquare(MeanSquare(s), Mean(s))
  }

  /** What the squared deviations are divided by: one less than the elements from two on. */
  function Divisor(n: real): real {
    if n >= 2.0 then n - 1.0 else n
  }

  /** What mean and variance of the unmasked values are. */
  ghost predicate Describes(mean: real, variance: real, values: seq<real>, mask: seq<real>)
    requires |values| == |mask|
  {
    && Ratio(mean, Total(Masked(values, mask)), Total(mask))
    && Ratio(variance, Deviations(values, mask, mean), Divisor(Total(mask)))
  }

  lemma Quotient(a: real, d: real)
    requires d > 0.0
    ensures Ratio(a / d, a, d)
  {
  }

  /** `E[x^2] - E[x]^2` is the mean squared deviation. */
  lemma {:induction false} MeanSquareForm(n: real, s: real, q: real, mean: real, square: real, d: real)
    requires Ratio(mean, s, n) && Ratio(square, q, n)
    requires Combines(d, 1.0, q, -2.0 * mean, s, mean * mean, n)
    ensures Ratio(LessSquare(square, mean), d, n)
  {
    assert mean * mean * n == mean * s;
    assert (square - mean * mean) * n == square * n - mean * mean * n;
    assert -2.0 * mean * s == -2.0 * (mean * s);
  }

  lemma {:induction false} Bessel(biased: real, n: real, d: real)
    requires Ratio(biased, d, n) && n >= 2.0
    ensures Ratio(biased * (n / (n - 1.0)), d, n - 1.0)
  {
    var f := n / (n - 1.0);
    assert f * (n - 1.0) == n;
    assert biased * f * (n - 1.0) == biased * (f * (n - 1.0));
  }

  function Corrected(biased: real, n: real): real {
    if n >= 2.0 then biased * (n / (n - 1.0)) else biased
  }

  lemma {:induction false} Correction(biased: real, n: real, d: real)
    requires Ratio(biased, d, n)
    ensures Ratio(Corrected(biased, n), d, Divisor(n))
  {
    if n >= 2.0 { Bessel(biased, n, d); }
  }

  lemma {:induction false} DeviationsRatio(values: seq<real>, mask: seq<real>, mean: real, square: real)
    requires |values| == |mask|
    requires Ratio(mean, Total(Masked(values, mask)), Total(mask))
    requires Ratio(square, Total(Masked(Squares(values), mask)), Total(mask))
    ensures Ratio(LessSquare(square, mean), Deviations(values, mask, mean), Total(mask))
  {
    DeviationsExpand(values, mask, mean);
    MeanSquareForm(Total(mask), Total(Masked(values, mask)), Total(Masked(Squares(values), mask)), mean, square,
                   Deviations(values, mask, mean));
  }

  lemma {:induction false} StatsRatios(s: Stats)
    requires s.maskSum > 0.0
    ensures Ratio(Mean(s), s.sum, s.maskSum) && Ratio(MeanSquare(s), s.sumSq, s.maskSum)
  {
    Quotient(s.sum, s.maskSum);
    Quotient(s.sumSq, s.maskSum);
  }

  lemma {:induction false} BiasedMeaning(values: seq<real>, mask: seq<real>)
    requires |values| == |mask| && Total(mask) > 0.0
    ensures var s := StatsOf(values, mask);
      Ratio(Mean(s), s.sum, s.maskSum) && Ratio(Biased(s), Deviations(values, mask, Mean(s)), s.maskSum)
  {
    var s := StatsOf(values, mask);
    StatsRatios(s);
    DeviationsRatio(values, mask, Mean(s), MeanSquare(s));
  }

  lemma RatioNonNegative(q: real, a: real, d: real)
    requires Ratio(q, a, d) && a >= 0.0
    ensures q >= 0.0
  {
    assert q == (q * d) / d;
  }

  // ---------------------------------------------------------------- whitening

  /** A reciprocal square root of positive numbers. */
  ghost predicate IsRsqrt(rsqrt: real -> real) {
    forall x: real :: x > 0.0 ==> Inverts(rsqrt(x), x)
  }

  ghost predicate Inverts(r: real, x: real) {
    r > 0.0 && r * r * x == 1.0
  }

  /** A value in units of the deviation, around zero or around the mean. */
  function Whitened(x: real, mean: real, scale: real, shiftMean: bool): real {
    (x - mean) * scale + if shiftMean then 0.0 else mean
  }

  function Whiten(values: seq<real>, mean: real, scale: real, shiftMean: bool): (r: seq<real>)
    ensures |r| == |values| && forall i :: 0 <= i < |r| ==> r[i] == Whitened(values[i], mean, scale, shiftMean)
  {
    seq(|values|, i requires 0 <= i < |values| => Whitened(values[i], mean, scale, shiftMean))
  }

  lemma WhitenConcat(a: seq<real>, b: seq<real>, mean: real, scale: real, shiftMean: bool)
    ensures Whiten(a + b, mean, scale, shiftMean)
        == Whiten(a, mean, scale, shiftMean) + Whiten(b, mean, scale, shiftMean)
  {
    forall i | 0 <= i < |a| + |b|
      ensures Whiten(a + b, mean, scale, shiftMean)[i]
           == (Whiten(a, mean, scale, shiftMean) + Whiten(b, mean, scale, shiftMean))[i]
    {
      if i < |a| {
        assert (a + b)[i] == a[i];
      } else {
        assert (a + b)[i] == b[i - |a|];
      }
    }
  }

  lemma {:induction false} StatsDescribe(s: Stats, values: seq<real>, mask: seq<real>)
    requires |values| == |mask| && s == StatsOf(values, mask) && s.maskSum > 0.0
    ensures Describes(Mean(s), Corrected(Biased(s), s.maskSum), values, mask)
  {
    BiasedMeaning(values, mask);
    Correction(Biased(s), s.maskSum, Deviations(values, mask, Mean(s)));
  }

  /** Mean and variance from the reduced sums; `None` is the error for a mask that is zero everywhere. */
  method Statistics(s: Stats, ghost values: seq<real>, ghost mask: seq<real>) returns (r: Option<(real, real)>)
    requires Local(values, mask).Valid() && s == StatsOf(values, mask)
    ensures r.None? <==> Total(mask) == 0.0
    ensures r.Some? ==> Describes(r.value.0, r.value.1, values, mask)
  {
    if s.maskSum == 0.0 { return None; }
    TotalNonNegative(mask);
    var globalMean, globalVar := Moments(s);
    StatsDescribe(s, values, mask);
    r := Some((globalMean, globalVar));
  }

  method Moments(s: Stats) returns (globalMean: real, globalVar: real)
    requires s.maskSum > 0.0
    ensures globalMean == Mean(s) && globalVar == Corrected(Biased(s), s.maskSum)
  {
    globalMean, globalVar := Mean(s), Biased(s);
    if s.maskSum >= 2.0 {
      var besselCorrection := s.maskSum / (s.maskSum - 1.0);
      globalVar := globalVar * besselCorrection;
    }
  }

  /** `distributed_masked_whiten` on rank `me`. */
  method DistributedMaskedWhiten(ranks: seq<Local>, me: nat, shiftMean: bool, epsilon: real, rsqrt: real -> real)
    returns (whitened: Option<seq<real>>, ghost mean: real, ghost variance: real)
    requires AllValid(ranks) && me < |ranks| && epsilon > 0.0 && IsRsqrt(rsqrt)
    ensures |WholeValues(ranks)| == |WholeMask(ranks)|
    ensures whitened.None? <==> Total(WholeMask(ranks)) == 0.0
    ensures whitened.Some? ==>
      && Describes(mean, variance, WholeValues(ranks), WholeMask(ranks))
      && Inverts(rsqrt(variance + epsilon), variance + epsilon)
      && whitened.value == Whiten(ranks[me].values, mean, rsqrt(variance + epsilon), shiftMean)
  {
    WholeIsValid(ranks);
    var s := AllReduce(ranks);
    mean, variance := 0.0, 0.0;
    var r := Statistics(s, WholeValues(ranks), WholeMask(ranks));
    if r.None? { return None, mean, variance; }
    mean, variance := r.value.0, r.value.1;
    DeviationsNonNegative(WholeValues(ranks), WholeMask(ranks), mean);
    RatioNonNegative(variance, Deviations(WholeValues(ranks), WholeMask(ranks), mean),
                     Divisor(Total(WholeMask(ranks))));
    whitened := Some(Whiten(ranks[me].values, r.value.0, rsqrt(r.value.1 + epsilon), shiftMean));
  }

  // ---------------------------------------------------------------- what whitening achieves

  lemma WhitenedTerm(x: real, m: real, mean: real, scale: real)
    ensures Combines(Times(Whitened(x, mean, scale, true), m), scale, Times(x, m), -(scale * mean), m, 0.0, m)
  {
    assert (x - mean) * scale * m == scale * (x * m) - scale * mean * m;
  }

  lemma CenteredSum(w: real, scale: real, s: real, mean: real, n: real)
    requires Combines(w, scale, s, -(scale * mean), n, 0.0, n) && Ratio(mean, s, n)
    ensures w == 0.0
  {
    assert -(scale * mean) * n == -(scale * (mean * n));
  }

  /** With mean shift the whitened unmasked values of all data sum to zero. */
  lemma WhitenedSumIsZero(values: seq<real>, mask: seq<real>, mean: real, variance: real, scale: real)
    requires |values| == |mask| && Describes(mean, variance, values, mask)
    ensures Total(Masked(Whiten(values, mean, scale, true), mask)) == 0.0
  {
    var x, b := Masked(Whiten(values, mean, scale, true), mask), Masked(values, mask);
    WhitenedSum(values, mask, mean, scale);
    CenteredSum(Total(x), scale, Total(b), mean, Total(mask));
  }

  lemma WhitenedSum(values: seq<real>, mask: seq<real>, mean: real, scale: real)
    requires |values| == |mask|
    ensures Combines(Total(Masked(Whiten(values, mean, scale, true), mask)), scale, Total(Masked(values, mask)),
                     -(scale * mean), Total(mask), 0.0, Total(mask))
  {
    var x, b := Masked(Whiten(values, mean, scale, true), mask), Masked(values, mask);
    forall i | 0 <= i < |x| ensures Combines(x[i], scale, b[i], -(scale * mean), mask[i], 0.0, mask[i]) {
      WhitenedTerm(values[i], mask[i], mean, scale);
    }
    TotalCombines(x, scale, b, -(scale * mean), mask, 0.0, mask);
  }

  lemma UnshiftedTerm(x: real, m: real, mean: real, scale: real)
    ensures Combines(Times(Whitened(x, mean, scale, false), m), 1.0, Times(Whitened(x, mean, scale, true), m), mean, m,
                     0.0, m)
  {
  }

  /** Without it they keep the mean they had. */
  lemma UnshiftedKeepsMean(values: seq<real>, mask: seq<real>, mean: real, variance: real, scale: real)
    requires |values| == |mask| && Describes(mean, variance, values, mask)
    ensures Total(Masked(Whiten(values, mean, scale, false), mask)) == Total(Masked(values, mask))
    ensures Ratio(mean, Total(Masked(Whiten(values, mean, scale, false), mask)), Total(mask))
  {
    UnshiftedSum(values, mask, mean, scale);
    WhitenedSumIsZero(values, mask, mean, variance, scale);
    KeptSum(Total(Masked(Whiten(values, mean, scale, false), mask)),
            Total(Masked(Whiten(values, mean, scale, true), mask)), mean, Total(Masked(values, mask)), Total(mask));
  }

  lemma KeptSum(w: real, centered: real, mean: real, s: real, n: real)
    requires Combines(w, 1.0, centered, mean, n, 0.0, n) && centered == 0.0 && Ratio(mean, s, n)
    ensures w == s && Ratio(mean, w, n)
  {
  }

  lemma UnshiftedSum(values: seq<real>, mask: seq<real>, mean: real, scale: real)
    requires |values| == |mask|
    ensures Combines(Total(Masked(Whiten(values, mean, scale, false), mask)), 1.0,
                     Total(Masked(Whiten(values, mean, scale, true), mask)), mean, Total(mask), 0.0, Total(mask))
  {
    var x, b := Masked(Whiten(values, mean, scale, false), mask), Masked(Whiten(values, mean, scale, true), mask);
    forall i | 0 <= i < |x| ensures Combines(x[i], 1.0, b[i], mean, mask[i], 0.0, mask[i]) {
      UnshiftedTerm(values[i], mask[i], mean, scale);
    }
    TotalCombines(x, 1.0, b, mean, mask, 0.0, mask);
  }

  lemma SquaredTerm(x: real, m: real, mean: real, scale: real)
    ensures var w := Whitened(x, mean, scale, true);
      Combines(Times(Times(w, w), m), scale * scale, Times(Times(x - mean, x - mean), m), 0.0, m, 0.0, m)
  {
    var y := x - mean;
    assert (y * scale) * (y * scale) == (scale * scale) * (y * y);
    assert (scale * scale) * (y * y) * m == (scale * scale) * (y * y * m);
  }

  lemma {:induction false} WhitenedSquares(values: seq<real>, mask: seq<real>, mean: real, scale: real)
    requires |values| == |mask|
    ensures Combines(Total(Masked(Squares(Whiten(values, mean, scale, true)), mask)),
                     scale * scale, Deviations(values, mask, mean), 0.0, Total(mask), 0.0, Total(mask))
  {
    var x, b := Masked(Squares(Whiten(values, mean, scale, true)), mask), Masked(Squares(Shifted(values, mean)), mask);
    forall i | 0 <= i < |x| ensures Combines(x[i], scale * scale, b[i], 0.0, mask[i], 0.0, mask[i]) {
      SquaredTerm(values[i], mask[i], mean, scale);
    }
    TotalCombines(x, scale * scale, b, 0.0, mask, 0.0, mask);
  }

  /** Squares that sum to `n` variances once they are scaled up by the variance and epsilon. */
  ghost predicate UnitVariance(squares: real, variance: real, epsilon: real, n: real) {
    squares * (variance + epsilon) == variance * n
  }

  lemma ScaledRatio(scale: real, variance: real, epsilon: real, d: real, n: real, w: real, t: real)
    requires Ratio(variance, d, n) && Inverts(scale, variance + epsilon)
    requires Combines(w, scale * scale, d, 0.0, t, 0.0, t)
    ensures UnitVariance(w, variance, epsilon, n)
  {
    var f, x := scale * scale, variance + epsilon;
    assert w == f * d;
    assert w * x == f * d * x == (f * x) * d;
  }

  /** And their squares sum to `n - 1`, but for epsilon. */
  lemma {:induction false} WhitenedVariance(values: seq<real>, mask: seq<real>, mean: real, variance: real, scale: real,
                                            epsilon: real)
    requires |values| == |mask| && Describes(mean, variance, values, mask) && Inverts(scale, variance + epsilon)
    ensures UnitVariance(Total(Masked(Squares(Whiten(values, mean, scale, true)), mask)), variance, epsilon,
                         Divisor(Total(mask)))
  {
    WhitenedSquares(values, mask, mean, scale);
    ScaledRatio(scale, variance, epsilon, Deviations(values, mask, mean), Divisor(Total(mask)),
                Total(Masked(Squares(Whiten(values, mean, scale, true)), mask)), Total(mask));
  }

  /** What every rank returns. */
  ghost function WhitenedRanks(ranks: seq<Local>, mean: real, scale: real, shiftMean: bool): (r: seq<Local>)
    ensures |r| == |ranks|
  {
    if ranks == [] then [] else
      var n := |ranks| - 1;
      WhitenedRanks(ranks[..n], mean, scale, shiftMean)
      + [Local(Whiten(ranks[n].values, mean, scale, shiftMean), ranks[n].mask)]
  }

  /** Every rank whitens its own part with the same numbers; so the parts together are the whitened whole. */
  lemma {:induction false} PartsAreWhole(ranks: seq<Local>, mean: real, scale: real, shiftMean: bool)
    ensures WholeValues(WhitenedRanks(ranks, mean, scale, shiftMean))
        == Whiten(WholeValues(ranks), mean, scale, shiftMean)
  {
    if ranks != [] {
      var n := |ranks| - 1;
      PartsAreWhole(ranks[..n], mean, scale, shiftMean);
      assert WhitenedRanks(ranks, mean, scale, shiftMean)[..n] == WhitenedRanks(ranks[..n], mean, scale, shiftMean);
      WhitenConcat(WholeValues(ranks[..n]), ranks[n].values, mean, scale, shiftMean);
    }
  }
}
