/**
  The pass@k estimate of `miles/utils/metric_utils.py`: a running product that stands for
  `1 - C(n - c, k) / C(n, k)`, the fraction of the k-subsets of n samples that contain one of the c correct ones.
 */
module PassAtK {
  import opened Arith
  import opened Options
  import opened Sequences

  // ---------------------------------------------------------------- choosing k of n

  /** Pascal's triangle. */
  function C(n: nat, k: nat): nat {
    if k == 0 then 1 else if n == 0 then 0 else C(n - 1, k - 1) + C(n - 1, k)
  }

  /** A choice says of every sample whether it is drawn. */
  type Choice = seq<bool>

  function Drawn(s: Choice): (d: nat)
    ensures d <= |s|
  {
    if s == [] then 0 else Drawn(s[..|s| - 1]) + if s[|s| - 1] then 1 else 0
  }

  function Extend(family: seq<Choice>, b: bool): (r: seq<Choice>)
    ensures |r| == |family| && forall i :: 0 <= i < |r| ==> r[i] == family[i] + [b]
  {
    seq(|family|, i requires 0 <= i < |family| => family[i] + [b])
  }

  /** What is drawn before the last of `n` samples, if that is drawn. */
  function WithLast(n: nat, k: nat): seq<Choice>
    requires n > 0
    decreases n, 0
  {
    if k == 0 then [] else Choices(n - 1, k - 1)
  }

  /** All ways to draw `k` of `n` samples. */
  function Choices(n: nat, k: nat): seq<Choice>
    decreases n, 1
  {
    if n == 0 then (if k == 0 then [[]] else [])
    else Extend(Choices(n - 1, k), false) + Extend(WithLast(n, k), true)
  }

  /** The triangle counts the choices. */
  lemma {:induction false} ChoiceCount(n: nat, k: nat)
    ensures |Choices(n, k)| == C(n, k)
  {
    if n > 0 {
      ChoiceCount(n - 1, k);
      if k > 0 { ChoiceCount(n - 1, k - 1); }
    }
  }

  lemma InExtend(family: seq<Choice>, b: bool, s: Choice)
    ensures s in Extend(family, b) <==> s != [] && s[|s| - 1] == b && s[..|s| - 1] in family
  {
    if s in Extend(family, b) {
      var i :| 0 <= i < |family| && s == family[i] + [b];
      assert s[..|s| - 1] == family[i];
    }
    if s != [] && s[|s| - 1] == b && s[..|s| - 1] in family {
      var i :| 0 <= i < |family| && family[i] == s[..|s| - 1];
      assert Extend(family, b)[i] == s;
    }
  }

  lemma InBoth(out: seq<Choice>, drawn: seq<Choice>, s: Choice)
    ensures s in Extend(out, false) + Extend(drawn, true) <==>
      s != [] && s[..|s| - 1] in if s[|s| - 1] then drawn else out
  {
    InExtend(out, false, s);
    InExtend(drawn, true, s);
  }

  /** A choice is listed exactly if it draws `k` of `n`. */
  lemma {:induction false} ChoicesAreAll(n: nat, k: nat, s: Choice)
    ensures s in Choices(n, k) <==> |s| == n && Drawn(s) == k
  {
    if n > 0 {
      InBoth(Choices(n - 1, k), WithLast(n, k), s);
      if s != [] {
        ChoicesAreAll(n - 1, k, s[..|s| - 1]);
        if k > 0 { ChoicesAreAll(n - 1, k - 1, s[..|s| - 1]); }
      }
    }
  }

  /** And no choice is listed twice. */
  lemma {:induction false} ChoicesDiffer(n: nat, k: nat, i: nat, j: nat)
    requires i < j < |Choices(n, k)|
    ensures Choices(n, k)[i] != Choices(n, k)[j]
  {
    var out := Choices(n - 1, k);
    var m := |out|;
    if j < m {
      ChoicesDiffer(n - 1, k, i, j);
      LastDiffers(out[i], out[j], false, false);
    } else if i < m {
      LastDiffers(out[i], Choices(n - 1, k - 1)[j - m], false, true);
    } else {
      var drawn := Choices(n - 1, k - 1);
      ChoicesDiffer(n - 1, k - 1, i - m, j - m);
      LastDiffers(drawn[i - m], drawn[j - m], true, true);
    }
  }

  lemma LastDiffers(s: Choice, t: Choice, a: bool, b: bool)
    requires s != t || a != b
    ensures s + [a] != t + [b]
  {
    assert (s + [a])[..|s|] == s && (t + [b])[..|t|] == t;
    assert (s + [a])[|s|] == a && (t + [b])[|t|] == b;
  }

  /** Of samples some of which are correct, no correct one is drawn. */
  predicate Misses(correct: seq<bool>, s: Choice) {
    |s| == |correct| && forall i :: 0 <= i < |s| && correct[i] ==> !s[i]
  }

  /** How many choices of a family draw no correct sample. */
  function MissesIn(family: seq<Choice>, correct: seq<bool>): (m: nat)
    ensures m <= |family|
  {
    Count(family, (s: Choice) => Misses(correct, s))
  }

  lemma {:induction false} MissesSnoc(correct: seq<bool>, x: bool, s: Choice, b: bool)
    requires |s| == |correct|
    ensures Misses(correct + [x], s + [b]) <==> !(x && b) && Misses(correct, s)
  {
    var correct', t := correct + [x], s + [b];
    assert correct'[|s|] == x && t[|s|] == b;
    if Misses(correct', t) {
      forall i | 0 <= i < |s| && correct[i] ensures !s[i] { assert correct'[i] && !t[i]; }
    }
  }

  lemma {:induction false} ExtendCount(family: seq<Choice>, b: bool, correct: seq<bool>, x: bool)
    requires forall i :: 0 <= i < |family| ==> |family[i]| == |correct|
    ensures MissesIn(Extend(family, b), correct + [x])
         == if x && b then 0 else MissesIn(family, correct)
  {
    if family != [] {
      assert Extend(family, b)[1..] == Extend(family[1..], b);
      ExtendCount(family[1..], b, correct, x);
      MissesSnoc(correct, x, family[0], b);
    }
  }

  lemma {:induction false} ChoiceLengths(n: nat, k: nat)
    ensures forall i :: 0 <= i < |Choices(n, k)| ==> |Choices(n, k)[i]| == n
  {
    forall i | 0 <= i < |Choices(n, k)| ensures |Choices(n, k)[i]| == n {
      ChoicesAreAll(n, k, Choices(n, k)[i]);
    }
  }

  /** How many samples are not correct. */
  function Incorrect(correct: seq<bool>): (m: nat)
    ensures m == |correct| - Drawn(correct)
  {
    if correct == [] then 0 else
      Incorrect(correct[..|correct| - 1]) + if correct[|correct| - 1] then 0 else 1
  }

  lemma {:induction false} WithLastLengths(n: nat, k: nat)
    requires n > 0
    ensures forall i :: 0 <= i < |WithLast(n, k)| ==> |WithLast(n, k)[i]| == n - 1
  {
    if k > 0 { ChoiceLengths(n - 1, k - 1); }
  }

  /** The choices that miss, by whether the last sample is drawn, which it may be if it is not correct. */
  lemma {:induction false} MissStep(rest: seq<bool>, x: bool, k: nat)
    ensures MissesIn(Choices(|rest| + 1, k), rest + [x])
         == MissesIn(Choices(|rest|, k), rest)
          + if x then 0 else MissesIn(WithLast(|rest| + 1, k), rest)
  {
    var n := |rest| + 1;
    ChoiceLengths(n - 1, k);
    WithLastLengths(n, k);
    CountConcat(Extend(Choices(n - 1, k), false), Extend(WithLast(n, k), true), (s: Choice) => Misses(rest + [x], s));
    ExtendCount(Choices(n - 1, k), false, rest, x);
    ExtendCount(WithLast(n, k), true, rest, x);
  }

  lemma {:induction false} IncorrectSnoc(rest: seq<bool>, x: bool)
    ensures Incorrect(rest + [x]) == Incorrect(rest) + if x then 0 else 1
  {
    assert (rest + [x])[..|rest|] == rest;
  }

  lemma {:induction false} MissWithLast(rest: seq<bool>, k: nat)
    ensures MissesIn(WithLast(|rest| + 1, k), rest) == if k == 0 then 0 else MissesIn(Choices(|rest|, k - 1), rest)
  {
  }

  lemma {:induction false} MissCountSnoc(rest: seq<bool>, x: bool, k: nat)
    requires MissesIn(Choices(|rest|, k), rest) == C(Incorrect(rest), k)
    requires k > 0 ==> MissesIn(Choices(|rest|, k - 1), rest) == C(Incorrect(rest), k - 1)
    ensures MissesIn(Choices(|rest| + 1, k), rest + [x]) == C(Incorrect(rest + [x]), k)
  {
    MissStep(rest, x, k);
    MissWithLast(rest, k);
    IncorrectSnoc(rest, x);
    Pascal(Incorrect(rest), k);
  }

  lemma {:induction false} MissCountNone(k: nat)
    ensures MissesIn(Choices(0, k), []) == C(0, k)
  {
  }

  /** Whichever samples are correct, the choices without a correct one are those from the incorrect samples alone. */
  lemma {:induction false} MissCount(correct: seq<bool>, k: nat)
    ensures MissesIn(Choices(|correct|, k), correct) == C(Incorrect(correct), k)
    decreases |correct|
  {
    if correct != [] {
      var rest, x := correct[..|correct| - 1], correct[|correct| - 1];
      assert rest + [x] == correct && |rest| + 1 == |correct|;
      MissCount(rest, k);
      if k > 0 { MissCount(rest, k - 1); }
      MissCountSnoc(rest, x, k);
    } else {
      MissCountNone(k);
    }
  }

  lemma {:induction false} Pascal(m: nat, k: nat)
    ensures C(m + 1, k) == C(m, k) + if k == 0 then 0 else C(m, k - 1)
  {
  }

  // ---------------------------------------------------------------- rows of the triangle

  /** `C(n, k + 1) (k + 1) = C(n, k) (n - k)`, and `n C(n - 1, k) = (n - k) C(n, k)`. */
  lemma {:induction false} NextInRow(n: nat, k: nat)
    ensures (k + 1) * C(n, k + 1) == (n - k) * C(n, k)
    ensures n > 0 ==> n * C(n - 1, k) == (n - k) * C(n, k)
  {
    if n == 0 {
      assert k > 0 ==> C(n, k) == 0;
    } else {
      NextInRow(n - 1, k);
      if k > 0 {
        NextInRow(n - 1, k - 1);
        RowAbove(n, k, C(n, k), C(n - 1, k), C(n - 1, k - 1));
      }
      NextFromAbove(n, k, C(n, k + 1), C(n, k), C(n - 1, k), C(n - 1, k + 1));
    }
  }

  lemma RowAbove(n: int, k: int, nk: int, a: int, b: int)
    requires nk == b + a && k * a == (n - k) * b
    ensures n * a == (n - k) * nk
  {
    assert (n - k) * nk == (n - k) * b + (n - k) * a;
    assert n * a == k * a + (n - k) * a;
  }

  lemma NextFromAbove(n: int, k: int, nk1: int, nk: int, a: int, b: int)
    requires nk1 == a + b && (k + 1) * b == (n - 1 - k) * a && n * a == (n - k) * nk
    ensures (k + 1) * nk1 == (n - k) * nk
  {
    assert (k + 1) * nk1 == (k + 1) * a + (k + 1) * b;
    assert (k + 1) * a + (n - 1 - k) * a == n * a;
  }

  lemma {:induction false} Positive(n: nat, k: nat)
    ensures C(n, k) > 0 <==> k <= n
  {
    if n > 0 && k > 0 {
      Positive(n - 1, k - 1);
      Positive(n - 1, k);
    }
  }

  lemma {:induction false} MoreToChooseFrom(m: nat, n: nat, k: nat)
    requires m <= n
    ensures C(m, k) <= C(n, k)
  {
    if m < n && k > 0 { MoreToChooseFrom(m, n - 1, k); }
  }

  lemma FewerMisses(n: nat, c: nat, k: nat)
    requires 0 < c <= n && 0 < k <= n
    ensures C(n - c, k) < C(n, k)
  {
    MoreToChooseFrom(n - c, n - 1, k);
    Positive(n - 1, k - 1);
  }

  // ---------------------------------------------------------------- quotients of naturals

  /** `q` is `a / d`. */
  ghost predicate Fraction(q: real, a: nat, d: nat) {
    Ratio(q, a as real, d as real)
  }

  lemma RatioIsQuotient(q: real, a: nat, d: nat)
    requires Fraction(q, a, d)
    ensures q == a as real / d as real
  {
    var x := d as real;
    assert q == (q * x) / x;
  }

  lemma RatioBounds(q: real, a: nat, d: nat)
    requires Fraction(q, a, d) && a <= d
    ensures 0.0 <= q <= 1.0 && (q == 0.0 <==> a == 0) && (q == 1.0 <==> a == d)
  {
    RatioIsQuotient(q, a, d);
  }

  lemma RatioOrder(q: real, a: nat, b: nat, r: real, a': nat, b': nat)
    requires Fraction(q, a, b) && Fraction(r, a', b') && a * b' <= a' * b
    ensures q <= r
  {
    var w := b as real * b' as real;
    assert q * w == (a * b') as real;
    assert r * w == (a' * b) as real;
  }

  lemma CrossMultiply(j: nat, p: nat, q: nat, a: nat, a': nat, b: nat, b': nat)
    requires j > 0 && p <= q && j * a' == p * a && j * b' == q * b
    ensures a' * b <= a * b'
  {
    var ab := a * b;
    assert j * (a' * b) == (j * a') * b == p * ab;
    assert j * (a * b') == a * (j * b') == q * ab;
    MulMonotone(p, q, ab);
    MulStrict(a * b', a' * b, j);
  }

  // ---------------------------------------------------------------- the estimator

  /** `1 - k / i` for the `c` numbers `i` after `m`. */
  function Factors(m: nat, c: nat, k: nat): (f: seq<real>)
    ensures |f| == c
  {
    seq(c, j requires 0 <= j < c => Factor(m + 1 + j, k))
  }

  function Factor(i: nat, k: nat): real
    requires i > 0
  {
    1.0 - k as real / i as real
  }

  function Product(f: seq<real>): real {
    if f == [] then 1.0 else Product(f[..|f| - 1]) * f[|f| - 1]
  }

  function Estimator(n: nat, c: nat, k: nat): real
    requires c <= n
  {
    if n - c < k then 1.0 else 1.0 - Product(Factors(n - c, c, k))
  }

  lemma FactorIsRatio(n: nat, k: nat, a: nat, b: nat)
    requires n > 0 && b > 0 && n * a == (n - k) * b
    ensures Fraction(Factor(n, k), a, b)
  {
    var x, y, z := n as real, k as real, b as real;
    assert (n * a) as real == x * a as real && ((n - k) * b) as real == (x - y) * z;
    var q := y / x;
    assert q * x == y;
    assert x * ((1.0 - q) * z) == (x - q * x) * z == (x - y) * z == x * a as real;
  }

  /** Neighbours of a list of rows are in the ratio of the factors. */
  ghost predicate Chain(f: seq<real>, rows: nat -> nat) {
    forall j :: 0 <= j < |f| ==> Fraction(f[j], rows(j), rows(j + 1))
  }

  /** The product of the factors telescopes. */
  lemma {:induction false} Telescope(f: seq<real>, rows: nat -> nat)
    requires Chain(f, rows) && rows(0) > 0
    ensures Fraction(Product(f), rows(0), rows(|f|))
  {
    if f != [] {
      var n := |f| - 1;
      Telescope(f[..n], rows);
    }
  }

  lemma RowsChain(m: nat, c: nat, k: nat)
    requires k <= m
    ensures Chain(Factors(m, c, k), (j: nat) => C(m + j, k))
  {
    forall j | 0 <= j < c ensures Fraction(Factors(m, c, k)[j], C(m + j, k), C(m + (j + 1), k)) {
      NextInRow(m + 1 + j, k);
      Positive(m + 1 + j, k);
      FactorIsRatio(m + 1 + j, k, C(m + j, k), C(m + 1 + j, k));
    }
  }

  lemma ProductIsRatio(m: nat, c: nat, k: nat)
    requires k <= m
    ensures Fraction(Product(Factors(m, c, k)), C(m, k), C(m + c, k))
  {
    RowsChain(m, c, k);
    Positive(m, k);
    Telescope(Factors(m, c, k), (j: nat) => C(m + j, k));
  }

  /** On both branches what is missing to 1 is `C(n - c, k) / C(n, k)`. */
  lemma MissRatio(n: nat, c: nat, k: nat)
    requires c <= n && k <= n
    ensures Fraction(1.0 - Estimator(n, c, k), C(n - c, k), C(n, k))
  {
    Positive(n, k);
    Positive(n - c, k);
    if n - c >= k { ProductIsRatio(n - c, c, k); }
  }

  /** The estimate is `1 - C(n - c, k) / C(n, k)`. */
  lemma EstimateIsRatio(n: nat, c: nat, k: nat)
    requires c <= n && k <= n
    ensures C(n, k) > 0 && Estimator(n, c, k) == 1.0 - C(n - c, k) as real / C(n, k) as real
  {
    MissRatio(n, c, k);
    RatioIsQuotient(1.0 - Estimator(n, c, k), C(n - c, k), C(n, k));
  }

  /** How many choices draw a correct sample. */
  ghost function Hits(correct: seq<bool>, k: nat): nat {
    |Choices(|correct|, k)| - MissesIn(Choices(|correct|, k), correct)
  }

  /** Whichever `c` of the samples are correct, the estimate is the fraction of all choices that draw one of them. */
  lemma EstimateIsFraction(correct: seq<bool>, k: nat)
    requires k <= |correct|
    ensures Fraction(Estimator(|correct|, Drawn(correct), k), Hits(correct, k), |Choices(|correct|, k)|)
  {
    var n, c := |correct|, Drawn(correct);
    assert Incorrect(correct) == n - c;
    ChoiceCount(n, k);
    MissCount(correct, k);
    MissRatio(n, c, k);
    RatioComplement(1.0 - Estimator(n, c, k), C(n - c, k), C(n, k));
  }

  lemma RatioComplement(q: real, a: nat, d: nat)
    requires Fraction(q, a, d) && a <= d
    ensures Fraction(1.0 - q, d - a, d)
  {
  }

  /** The estimate lies in [0, 1]: 0 exactly without a correct or a drawn sample, 1 exactly if a miss is impossible. */
  lemma EstimateBounds(n: nat, c: nat, k: nat)
    requires c <= n && k <= n
    ensures 0.0 <= Estimator(n, c, k) <= 1.0
    ensures Estimator(n, c, k) == 1.0 <==> n - c < k
    ensures Estimator(n, c, k) == 0.0 <==> c == 0 || k == 0
  {
    MissRatio(n, c, k);
    Positive(n - c, k);
    MoreToChooseFrom(n - c, n, k);
    if c > 0 && k > 0 { FewerMisses(n, c, k); }
    RatioBounds(1.0 - Estimator(n, c, k), C(n - c, k), C(n, k));
  }

  /** More correct samples do not lower the estimate. */
  lemma MonotoneInCorrect(n: nat, c: nat, c': nat, k: nat)
    requires c <= c' <= n && k <= n
    ensures Estimator(n, c, k) <= Estimator(n, c', k)
  {
    MissRatio(n, c, k);
    MissRatio(n, c', k);
    MoreToChooseFrom(n - c', n - c, k);
    MulMonotone(C(n - c', k), C(n - c, k), C(n, k));
    RatioOrder(1.0 - Estimator(n, c', k), C(n - c', k), C(n, k), 1.0 - Estimator(n, c, k), C(n - c, k), C(n, k));
  }

  /** Nor do more draws. */
  lemma MonotoneInDraws(n: nat, c: nat, k: nat)
    requires c <= n && k < n
    ensures Estimator(n, c, k) <= Estimator(n, c, k + 1)
  {
    MissRatio(n, c, k);
    MissRatio(n, c, k + 1);
    FewerMissesPerDraw(n, n - c, k);
    RatioOrder(1.0 - Estimator(n, c, k + 1), C(n - c, k + 1), C(n, k + 1),
               1.0 - Estimator(n, c, k), C(n - c, k), C(n, k));
  }

  lemma FewerMissesPerDraw(n: nat, m: nat, k: nat)
    requires m <= n && k < n
    ensures C(m, k + 1) * C(n, k) <= C(m, k) * C(n, k + 1)
  {
    if k <= m {
      NextInRow(n, k);
      NextInRow(m, k);
      CrossMultiply(k + 1, m - k, n - k, C(m, k), C(m, k + 1), C(n, k), C(n, k + 1));
    } else {
      Positive(m, k);
      Positive(m, k + 1);
    }
  }

  lemma {:induction false} MonotoneInDrawsTo(n: nat, c: nat, k: nat, k': nat)
    requires c <= n && k <= k' <= n
    ensures Estimator(n, c, k) <= Estimator(n, c, k')
  {
    if k < k' {
      MonotoneInDrawsTo(n, c, k, k' - 1);
      MonotoneInDraws(n, c, k' - 1);
    }
  }

  // ---------------------------------------------------------------- pass rates of a batch

  function Correct(rewards: seq<real>): (c: nat)
    ensures c <= |rewards|
  {
    if rewards == [] then 0 else Correct(rewards[..|rewards| - 1]) + if rewards[|rewards| - 1] == 1.0 then 1 else 0
  }

  /** It is the number of rewards that are one. */
  lemma {:induction false} CorrectIsOnes(rewards: seq<real>)
    ensures Correct(rewards) == multiset(rewards)[1.0]
  {
    if rewards != [] {
      CorrectIsOnes(rewards[..|rewards| - 1]);
      assert rewards == rewards[..|rewards| - 1] + [rewards[|rewards| - 1]];
    }
  }

  ghost predicate CountsOk(counts: seq<nat>, size: nat) {
    forall g :: 0 <= g < |counts| ==> counts[g] <= size
  }

  /** The estimates of all groups, summed. */
  function SumOfEstimates(counts: seq<nat>, size: nat, k: nat): real
    requires CountsOk(counts, size)
  {
    if counts == [] then 0.0
    else SumOfEstimates(counts[..|counts| - 1], size, k) + Estimator(size, counts[|counts| - 1], k)
  }

  lemma {:induction false} SumBetween(counts: seq<nat>, size: nat, k: nat)
    requires CountsOk(counts, size) && k <= size
    ensures 0.0 <= SumOfEstimates(counts, size, k) <= |counts| as real
  {
    if counts != [] {
      SumBetween(counts[..|counts| - 1], size, k);
      EstimateBounds(size, counts[|counts| - 1], k);
    }
  }

  lemma {:induction false} SumMonotone(counts: seq<nat>, size: nat, k: nat, k': nat)
    requires CountsOk(counts, size) && k <= k' <= size
    ensures SumOfEstimates(counts, size, k) <= SumOfEstimates(counts, size, k')
  {
    if counts != [] {
      SumMonotone(counts[..|counts| - 1], size, k, k');
      MonotoneInDrawsTo(size, counts[|counts| - 1], k, k');
    }
  }

  function PassRate(counts: seq<nat>, size: nat, k: nat): real
    requires CountsOk(counts, size) && counts != []
  {
    SumOfEstimates(counts, size, k) / |counts| as real
  }

  lemma {:induction false} DivideMonotone(a: real, b: real, n: real)
    requires a <= b && n > 0.0
    ensures a / n <= b / n
  {
    assert (a / n) * n == a && (b / n) * n == b;
    assert (b / n - a / n) * n >= 0.0;
  }

  lemma {:induction false} RateBounds(counts: seq<nat>, size: nat, k: nat)
    requires CountsOk(counts, size) && counts != [] && k <= size
    ensures 0.0 <= PassRate(counts, size, k) <= 1.0
  {
    var n := |counts| as real;
    SumBetween(counts, size, k);
    DivideMonotone(0.0, SumOfEstimates(counts, size, k), n);
    DivideMonotone(SumOfEstimates(counts, size, k), n, n);
    assert n / n == 1.0 && 0.0 / n == 0.0;
  }

  lemma {:induction false} RateMonotone(counts: seq<nat>, size: nat, k: nat, k': nat)
    requires CountsOk(counts, size) && counts != [] && k <= k' <= size
    ensures PassRate(counts, size, k) <= PassRate(counts, size, k')
  {
    SumMonotone(counts, size, k, k');
    DivideMonotone(SumOfEstimates(counts, size, k), SumOfEstimates(counts, size, k'), |counts| as real);
  }

  predicate PowerOfTwo(k: nat) {
    k > 0 && (k == 1 || (k % 2 == 0 && PowerOfTwo(k / 2)))
  }

  /** Between a power of two and its double there is no other. */
  lemma {:induction false} NextPower(k: nat, j: nat)
    requires PowerOfTwo(k) && PowerOfTwo(j) && k < j
    ensures 2 * k <= j
  {
    if k > 1 { NextPower(k / 2, j / 2); }
  }

  /** The correct answers of every group of `size` rewards in a row. */
  ghost predicate Grouped(flat: seq<real>, size: nat, counts: seq<nat>) {
    && |flat| == |counts| * size
    && forall g :: 0 <= g < |counts| ==> GroupCount(flat, size, g, counts[g])
  }

  ghost predicate GroupCount(flat: seq<real>, size: nat, g: nat, count: nat) {
    var first := g * size;
    first + size <= |flat| && count == multiset(flat[first..first + size])[1.0]
  }

  method CountCorrect(flat: seq<real>, size: nat, groups: nat) returns (counts: seq<nat>)
    requires |flat| == groups * size
    ensures |counts| == groups && Grouped(flat, size, counts) && CountsOk(counts, size)
  {
    counts := [];
    for g := 0 to groups
      invariant |counts| == g && CountsOk(counts, size)
      invariant forall h :: 0 <= h < g ==> GroupCount(flat, size, h, counts[h])
    {
      var first := g * size;
      MulMonotone(g + 1, groups, size);
      MulSucc(g, size);
      var count := Correct(flat[first..first + size]);
      CorrectIsOnes(flat[first..first + size]);
      counts := counts + [count];
    }
  }

  /** The rates for the powers of two below a limit. */
  ghost predicate RatesBelow(rates: map<nat, real>, counts: seq<nat>, size: nat, limit: nat)
    requires CountsOk(counts, size) && counts != []
  {
    && (forall k: nat :: k in rates <==> PowerOfTwo(k) && k < limit && k <= size)
    && (forall k: nat :: k in rates ==> rates[k] == PassRate(counts, size, k))
  }

  lemma {:induction false} OneMoreRate(rates: map<nat, real>, counts: seq<nat>, size: nat, k: nat)
    requires CountsOk(counts, size) && counts != [] && PowerOfTwo(k) && k <= size
    requires RatesBelow(rates, counts, size, k)
    ensures RatesBelow(rates[k := PassRate(counts, size, k)], counts, size, 2 * k) && PowerOfTwo(2 * k)
  {
    assert 2 * k / 2 == k && 2 * k % 2 == 0;
    forall j: nat | PowerOfTwo(j) && k < j ensures 2 * k <= j { NextPower(k, j); }
  }

  /** Every power of two up to the group size has its rate; all lie in [0, 1] and none is below one for fewer draws. */
  ghost predicate RatesOk(rates: map<nat, real>, counts: seq<nat>, size: nat)
    requires CountsOk(counts, size) && counts != []
  {
    && (forall k: nat :: k in rates <==> PowerOfTwo(k) && k <= size)
    && (forall k: nat :: k in rates ==> rates[k] == PassRate(counts, size, k) && 0.0 <= rates[k] <= 1.0)
    && (forall k: nat, k': nat :: k in rates && k' in rates && k <= k' ==> rates[k] <= rates[k'])
  }

  lemma {:induction false} AllRates(rates: map<nat, real>, counts: seq<nat>, size: nat, limit: nat)
    requires CountsOk(counts, size) && counts != [] && size < limit && RatesBelow(rates, counts, size, limit)
    ensures RatesOk(rates, counts, size)
  {
    forall j: nat | j in rates ensures 0.0 <= rates[j] <= 1.0 { RateBounds(counts, size, j); }
    forall i: nat, j: nat | i in rates && j in rates && i <= j ensures rates[i] <= rates[j] {
      RateMonotone(counts, size, i, j);
    }
  }

  /**
    `compute_pass_rate` for a batch with at least one group; `None` is its failing assertion.
    Groups of one have no rates.
   */
  method ComputePassRate(flat: seq<real>, size: nat, numGroups: Option<nat>)
    returns (rates: Option<map<nat, real>>, ghost counts: seq<nat>)
    requires size > 0 && flat != []
    ensures size == 1 ==> rates == Some(map[])
    ensures size > 1 ==>
      (rates.Some? <==> |flat| == size * if numGroups.Some? then numGroups.value else |flat| / size)
    ensures size > 1 && rates.Some? ==>
      counts != [] && Grouped(flat, size, counts) && CountsOk(counts, size) && RatesOk(rates.value, counts, size)
  {
    counts := [];
    if size == 1 { return Some(map[]), counts; }
    var groups := if numGroups.Some? then numGroups.value else |flat| / size;
    if |flat| != groups * size { return None, counts; }
    var correct := CountCorrect(flat, size, groups);
    var log := Rates(correct, size);
    rates, counts := Some(log), correct;
  }

  method Rates(counts: seq<nat>, size: nat) returns (rates: map<nat, real>)
    requires CountsOk(counts, size) && counts != []
    ensures RatesOk(rates, counts, size)
  {
    rates := map[];
    var k: nat := 1;
    while k <= size
      invariant PowerOfTwo(k) && RatesBelow(rates, counts, size, k)
      decreases size - k
    {
      OneMoreRate(rates, counts, size, k);
      rates := rates[k := PassRate(counts, size, k)];
      k := 2 * k;
    }
    AllRates(rates, counts, size, k);
  }
}
