/**
  First-fit counting of micro batches, `get_minimum_num_micro_batch_size` of `miles/utils/data.py`.
 */
module Packing {
  import opened Arith
  import opened Sequences

  // ---------------------------------------------------------------- first fit

  /** The first bin from `i` on that takes the length, or the number of bins. */
  function FirstFitting(bins: seq<int>, length: int, capacity: int, i: nat): (j: nat)
    requires i <= |bins|
    ensures i <= j <= |bins|
    ensures j < |bins| ==> bins[j] + length <= capacity
    ensures forall l :: i <= l < j ==> bins[l] + length > capacity
    decreases |bins| - i
  {
    if i == |bins| || bins[i] + length <= capacity then i else FirstFitting(bins, length, capacity, i + 1)
  }

  /** A length in bin `j`, which may be a new one. */
  function PutIn(bins: seq<int>, length: int, j: nat): (r: seq<int>)
    requires j <= |bins|
    ensures |r| == if j < |bins| then |bins| else |bins| + 1
  {
    if j < |bins| then bins[j := bins[j] + length] else bins + [length]
  }

  function FirstFit(lengths: seq<int>, capacity: int): seq<int> {
    if lengths == [] then [] else
      var bins := FirstFit(lengths[..|lengths| - 1], capacity);
      var length := lengths[|lengths| - 1];
      PutIn(bins, length, FirstFitting(bins, length, capacity, 0))
  }

  /** `get_minimum_num_micro_batch_size` */
  method GetMinimumNumMicroBatchSize(totalLengths: seq<int>, maxTokensPerGpu: int) returns (n: nat)
    ensures n == |FirstFit(totalLengths, maxTokensPerGpu)|
  {
    var batches: seq<int> := [];
    for l := 0 to |totalLengths|
      invariant batches == FirstFit(totalLengths[..l], maxTokensPerGpu)
    {
      var length := totalLengths[l];
      assert totalLengths[..l + 1][..l] == totalLengths[..l];
      var i := 0;
      while i < |batches|
        invariant i <= |batches|
        invariant FirstFitting(batches, length, maxTokensPerGpu, i) == FirstFitting(batches, length, maxTokensPerGpu, 0)
      {
        if batches[i] + length <= maxTokensPerGpu { break; }
        i := i + 1;
      }
      batches := if i < |batches| then batches[i := batches[i] + length] else batches + [length];
    }
    assert totalLengths[..|totalLengths|] == totalLengths;
    n := |batches|;
  }

  // ---------------------------------------------------------------- packings

  ghost predicate InBins(where: seq<nat>, bins: nat) {
    forall l :: 0 <= l < |where| ==> where[l] < bins
  }

  /** How full the bins get when item `l` goes to bin `where[l]`. */
  ghost function Loads(lengths: seq<int>, where: seq<nat>, bins: nat): (r: seq<int>)
    requires |where| == |lengths| && InBins(where, bins)
    ensures |r| == bins
  {
    if lengths == [] then seq(bins, _ => 0) else
      var n := |lengths| - 1;
      var before := Loads(lengths[..n], where[..n], bins);
      before[where[n] := before[where[n]] + lengths[n]]
  }

  ghost predicate Packs(lengths: seq<int>, capacity: int, where: seq<nat>, bins: nat) {
    && |where| == |lengths| && InBins(where, bins)
    && forall b :: 0 <= b < bins ==> Loads(lengths, where, bins)[b] <= capacity
  }

  ghost predicate NonNegative(s: seq<int>) {
    forall i :: 0 <= i < |s| ==> s[i] >= 0
  }

  lemma {:induction false} SumOfZeros(n: nat)
    ensures Sum(seq(n, _ => 0)) == 0
  {
    if n > 0 {
      assert seq(n, _ => 0)[..n - 1] == seq(n - 1, _ => 0);
      SumOfZeros(n - 1);
    }
  }

  /** Packing keeps the total. */
  lemma {:induction false} LoadsSum(lengths: seq<int>, where: seq<nat>, bins: nat)
    requires |where| == |lengths| && InBins(where, bins)
    ensures Sum(Loads(lengths, where, bins)) == Sum(lengths)
  {
    if lengths == [] {
      SumOfZeros(bins);
    } else {
      var n := |lengths| - 1;
      LoadsSum(lengths[..n], where[..n], bins);
      SumUpdate(Loads(lengths[..n], where[..n], bins), where[n],
                Loads(lengths[..n], where[..n], bins)[where[n]] + lengths[n]);
    }
  }

  /** No packing holds more than its bins can. */
  lemma PackedTotal(lengths: seq<int>, capacity: int, where: seq<nat>, bins: nat)
    requires Packs(lengths, capacity, where, bins)
    ensures Sum(lengths) <= bins * capacity
  {
    LoadsSum(lengths, where, bins);
    SumCeiling(Loads(lengths, where, bins), capacity);
  }

  // ---------------------------------------------------------------- what first fit achieves

  /** Bins in which first fit puts the items, one after another. */
  function FirstFitBins(lengths: seq<int>, capacity: int): (where: seq<nat>)
    ensures |where| == |lengths|
  {
    if lengths == [] then [] else
      var rest := lengths[..|lengths| - 1];
      FirstFitBins(rest, capacity) + [FirstFitting(FirstFit(rest, capacity), lengths[|lengths| - 1], capacity, 0)]
  }

  lemma {:induction false} MoreBins(lengths: seq<int>, where: seq<nat>, bins: nat)
    requires |where| == |lengths| && InBins(where, bins)
    ensures Loads(lengths, where, bins + 1) == Loads(lengths, where, bins) + [0]
  {
    if lengths != [] {
      var n := |lengths| - 1;
      MoreBins(lengths[..n], where[..n], bins);
    }
  }

  lemma LoadsSnoc(lengths: seq<int>, where: seq<nat>, bins: nat, length: int, b: nat)
    requires |where| == |lengths| && b < bins && InBins(where, bins)
    ensures InBins(where + [b], bins)
    ensures Loads(lengths + [length], where + [b], bins)
         == Loads(lengths, where, bins)[b := Loads(lengths, where, bins)[b] + length]
  {
    assert (lengths + [length])[..|lengths|] == lengths && (where + [b])[..|where|] == where;
  }

  lemma {:induction false} PutInLoads(lengths: seq<int>, where: seq<nat>, bins: seq<int>, length: int, j: nat)
    requires |where| == |lengths| && InBins(where, |bins|) && bins == Loads(lengths, where, |bins|) && j <= |bins|
    ensures InBins(where + [j], |PutIn(bins, length, j)|)
    ensures PutIn(bins, length, j) == Loads(lengths + [length], where + [j], |PutIn(bins, length, j)|)
  {
    if j < |bins| {
      LoadsSnoc(lengths, where, |bins|, length, j);
    } else {
      MoreBins(lengths, where, |bins|);
      LoadsSnoc(lengths, where, |bins| + 1, length, j);
      assert (bins + [0])[j := 0 + length] == bins + [length];
    }
  }

  /** The bins of first fit are the loads of an actual assignment of the items; so nothing is lost or counted twice. */
  lemma {:induction false} FirstFitIsPacking(lengths: seq<int>, capacity: int)
    ensures InBins(FirstFitBins(lengths, capacity), |FirstFit(lengths, capacity)|)
    ensures FirstFit(lengths, capacity)
        == Loads(lengths, FirstFitBins(lengths, capacity), |FirstFit(lengths, capacity)|)
  {
    if lengths != [] {
      var n := |lengths| - 1;
      var rest, length := lengths[..n], lengths[n];
      FirstFitIsPacking(rest, capacity);
      var bins := FirstFit(rest, capacity);
      PutInLoads(rest, FirstFitBins(rest, capacity), bins, length, FirstFitting(bins, length, capacity, 0));
      assert rest + [length] == lengths;
    }
  }

  lemma FirstFitTotal(lengths: seq<int>, capacity: int)
    ensures Sum(FirstFit(lengths, capacity)) == Sum(lengths)
  {
    FirstFitIsPacking(lengths, capacity);
    LoadsSum(lengths, FirstFitBins(lengths, capacity), |FirstFit(lengths, capacity)|);
  }

  /** Each bin is within capacity if each length is. */
  lemma {:induction false} FirstFitWithinCapacity(lengths: seq<int>, capacity: int)
    requires forall l :: 0 <= l < |lengths| ==> lengths[l] <= capacity
    ensures forall b :: 0 <= b < |FirstFit(lengths, capacity)| ==> FirstFit(lengths, capacity)[b] <= capacity
    ensures Packs(lengths, capacity, FirstFitBins(lengths, capacity), |FirstFit(lengths, capacity)|)
  {
    if lengths != [] { FirstFitWithinCapacity(lengths[..|lengths| - 1], capacity); }
    FirstFitIsPacking(lengths, capacity);
  }

  ghost predicate PairsExceed(bins: seq<int>, capacity: int) {
    NonNegative(bins) && forall a, b :: 0 <= a < b < |bins| ==> bins[a] + bins[b] > capacity
  }

  /** Any two bins of first fit are jointly over capacity. */
  lemma {:induction false} FirstFitPairsExceed(lengths: seq<int>, capacity: int)
    requires NonNegative(lengths)
    ensures PairsExceed(FirstFit(lengths, capacity), capacity)
  {
    if lengths != [] {
      FirstFitPairsExceed(lengths[..|lengths| - 1], capacity);
    }
  }

  ghost predicate HoldsMore(n: nat, capacity: int, total: int) {
    n * capacity < 2 * total
  }

  lemma TotalOfTwo(bins: seq<int>)
    requires |bins| >= 2
    ensures Sum(bins) == Sum(bins[..|bins| - 2]) + (bins[|bins| - 2] + bins[|bins| - 1])
  {
    assert bins[..|bins| - 1][..|bins| - 2] == bins[..|bins| - 2];
  }

  /** Bins that are pairwise over capacity hold, doubled, more than as many times the capacity. */
  lemma {:induction false} PairsHoldMore(bins: seq<int>, capacity: int)
    requires PairsExceed(bins, capacity) && |bins| >= 2
    ensures HoldsMore(|bins|, capacity, Sum(bins))
  {
    var n := |bins|;
    TotalOfTwo(bins);
    if n == 3 {
      assert Sum(bins[..1]) == bins[0];
    } else if n > 3 {
      PairsHoldMore(bins[..n - 2], capacity);
    }
  }

  lemma FewerThanTwice(m: nat, bins: nat, capacity: nat, total: int)
    requires HoldsMore(m, capacity, total) && total <= bins * capacity
    ensures m < 2 * bins
  {
    assert 2 * (bins * capacity) == (2 * bins) * capacity;
    if m >= 2 * bins { MulMonotone(2 * bins, m, capacity); }
  }

  /** First fit uses at most one bin, or fewer than twice as many as any packing. */
  lemma FirstFitBound(lengths: seq<int>, capacity: nat, where: seq<nat>, bins: nat)
    requires NonNegative(lengths) && Packs(lengths, capacity, where, bins)
    ensures |FirstFit(lengths, capacity)| <= 1 || |FirstFit(lengths, capacity)| < 2 * bins
  {
    var m := |FirstFit(lengths, capacity)|;
    if m >= 2 {
      FirstFitPairsExceed(lengths, capacity);
      PairsHoldMore(FirstFit(lengths, capacity), capacity);
      FirstFitTotal(lengths, capacity);
      PackedTotal(lengths, capacity, where, bins);
      FewerThanTwice(m, bins, capacity, Sum(lengths));
    }
  }

  // ---------------------------------------------------------------- when the count is a minimum

  /** No packing needs fewer bins. */
  ghost predicate Minimal(lengths: seq<int>, capacity: int) {
    forall where: seq<nat>, bins: nat :: Packs(lengths, capacity, where, bins) ==> |FirstFit(lengths, capacity)| <= bins
  }

  /** A count is minimal if the total is more than one bin fewer could hold. */
  lemma {:induction false} TotalShowsMinimal(lengths: seq<int>, capacity: nat)
    requires Sum(lengths) > (|FirstFit(lengths, capacity)| - 1) * capacity
    ensures Minimal(lengths, capacity)
  {
    var m := |FirstFit(lengths, capacity)|;
    forall where: seq<nat>, bins: nat | Packs(lengths, capacity, where, bins) ensures m <= bins {
      PackedTotal(lengths, capacity, where, bins);
      if bins <= m - 1 { MulMonotone(bins, m - 1, capacity); }
    }
  }

  /** A count of at most two is minimal; three need not be. */
  lemma {:induction false} TwoAreMinimal(lengths: seq<int>, capacity: nat)
    requires NonNegative(lengths) && |FirstFit(lengths, capacity)| <= 2
    ensures Minimal(lengths, capacity)
  {
    var bins := FirstFit(lengths, capacity);
    if |bins| == 2 {
      FirstFitPairsExceed(lengths, capacity);
      FirstFitTotal(lengths, capacity);
      TotalOfTwo(bins);
      assert bins[..0] == [];
      TotalShowsMinimal(lengths, capacity);
    } else {
      forall where: seq<nat>, n: nat | Packs(lengths, capacity, where, n) ensures |bins| <= n {
        if lengths != [] { assert where[0] < n; }
      }
    }
  }

  function Ones(n: nat): seq<int> {
    seq(n, _ => 1)
  }

  lemma {:induction false} SumOfOnes(n: nat)
    ensures Sum(Ones(n)) == n
  {
    if n > 0 {
      assert Ones(n)[..n - 1] == Ones(n - 1);
      SumOfOnes(n - 1);
    }
  }

  /** How many items go to bin `b`. */
  ghost function ItemsIn(where: seq<nat>, bins: nat, b: nat): int
    requires InBins(where, bins) && b < bins
  {
    Loads(Ones(|where|), where, bins)[b]
  }

  lemma {:induction false} ItemsStep(where: seq<nat>, bins: nat, b: nat)
    requires InBins(where, bins) && b < bins
    ensures ItemsIn(where, bins, b) >= 0
    ensures where == [] ==> ItemsIn(where, bins, b) == 0
    ensures where != [] ==>
      var n := |where| - 1;
      ItemsIn(where, bins, b) == ItemsIn(where[..n], bins, b) + if where[n] == b then 1 else 0
  {
    if where != [] {
      var n := |where| - 1;
      assert Ones(|where|)[..n] == Ones(n);
      ItemsStep(where[..n], bins, b);
    }
  }

  /** At most `most` items to a bin: no more items than that many times the bins. */
  lemma {:induction false} ItemsBound(where: seq<nat>, bins: nat, most: nat)
    requires InBins(where, bins) && forall b :: 0 <= b < bins ==> ItemsIn(where, bins, b) <= most
    ensures |where| <= bins * most
  {
    var counts := Loads(Ones(|where|), where, bins);
    LoadsSum(Ones(|where|), where, bins);
    SumOfOnes(|where|);
    forall b | 0 <= b < bins ensures counts[b] <= most { assert counts[b] == ItemsIn(where, bins, b); }
    SumCeiling(counts, most);
  }

  ghost predicate TwoExceed(lengths: seq<int>, capacity: int) {
    NonNegative(lengths) && forall a, b :: 0 <= a < b < |lengths| ==> lengths[a] + lengths[b] > capacity
  }

  /** A bin with one item is as full as that; with more it is over capacity, if any two items are. */
  lemma {:induction false} LoadOfFew(lengths: seq<int>, capacity: int, where: seq<nat>, bins: nat, b: nat)
    requires TwoExceed(lengths, capacity) && |where| == |lengths| && InBins(where, bins) && b < bins
    ensures ItemsIn(where, bins, b) == 0 ==> Loads(lengths, where, bins)[b] == 0
    ensures ItemsIn(where, bins, b) == 1 ==>
        exists l :: 0 <= l < |lengths| && Loads(lengths, where, bins)[b] == lengths[l]
    ensures ItemsIn(where, bins, b) > 1 ==> Loads(lengths, where, bins)[b] > capacity
  {
    ItemsStep(where, bins, b);
    if lengths != [] {
      var n := |lengths| - 1;
      ItemsStep(where[..n], bins, b);
      LoadOfFew(lengths[..n], capacity, where[..n], bins, b);
      if ItemsIn(where[..n], bins, b) == 1 {
        var l :| 0 <= l < n && Loads(lengths[..n], where[..n], bins)[b] == lengths[..n][l];
        assert lengths[l] + lengths[n] > capacity;
      }
      if ItemsIn(where, bins, b) == 1 && where[n] == b { assert Loads(lengths, where, bins)[b] == lengths[n]; }
    }
  }

  /** When any two lengths are jointly over capacity each gets its own bin, and no packing can do better. */
  lemma {:induction false} LongOnesAreMinimal(lengths: seq<int>, capacity: int)
    requires TwoExceed(lengths, capacity)
    ensures FirstFit(lengths, capacity) == lengths && Minimal(lengths, capacity)
  {
    if lengths != [] {
      var n := |lengths| - 1;
      LongOnesAreMinimal(lengths[..n], capacity);
      assert lengths == lengths[..n] + [lengths[n]];
    }
    forall where: seq<nat>, bins: nat | Packs(lengths, capacity, where, bins) ensures |lengths| <= bins {
      forall b | 0 <= b < bins ensures ItemsIn(where, bins, b) <= 1 {
        LoadOfFew(lengths, capacity, where, bins, b);
        assert Loads(lengths, where, bins)[b] <= capacity;
      }
      ItemsBound(where, bins, 1);
    }
  }

  function Equal(n: nat, length: int): seq<int> {
    seq(n, _ => length)
  }

  /** Of equal lengths a bin holds as many times the length as it holds items. */
  lemma {:induction false} LoadOfEqual(n: nat, length: int, where: seq<nat>, bins: nat, b: nat)
    requires |where| == n && InBins(where, bins) && b < bins
    ensures Loads(Equal(n, length), where, bins)[b] == ItemsIn(where, bins, b) * length
  {
    ItemsStep(where, bins, b);
    if n > 0 {
      assert Equal(n, length)[..n - 1] == Equal(n - 1, length);
      LoadOfEqual(n - 1, length, where[..n - 1], bins, b);
      MulSucc(ItemsIn(where[..n - 1], bins, b), length);
    }
  }

  /** `most` items fit into a bin and one more does not. */
  ghost predicate FitsMost(most: nat, length: nat, capacity: nat) {
    most * length <= capacity < (most + 1) * length
  }

  lemma {:induction false} CountThatFits(items: int, most: nat, length: nat, capacity: nat)
    requires FitsMost(most, length, capacity)
    ensures items * length <= capacity <==> items <= most
    ensures items * length + length <= capacity <==> items < most
  {
    MulSucc(items, length);
    if items <= most { MulMonotone(items, most, length); } else { MulMonotone(most + 1, items, length); }
    if items < most { MulMonotone(items + 1, most, length); } else { MulMonotone(most + 1, items + 1, length); }
  }

  /** First fit fills all bins but the last. */
  ghost predicate Filled(bins: seq<int>, n: nat, most: nat, length: nat) {
    && bins != [] && |bins| * most >= n > (|bins| - 1) * most
    && (forall b :: 0 <= b < |bins| - 1 ==> bins[b] == most * length)
    && bins[|bins| - 1] == (n - (|bins| - 1) * most) * length
  }

  lemma {:induction false} FillStep(bins: seq<int>, n: nat, most: nat, length: nat, capacity: nat)
    requires Filled(bins, n, most, length) && FitsMost(most, length, capacity) && most > 0
    ensures Filled(PutIn(bins, length, FirstFitting(bins, length, capacity, 0)), n + 1, most, length)
  {
    var m := |bins|;
    var last := n - (m - 1) * most;
    CountThatFits(most, most, length, capacity);
    CountThatFits(last, most, length, capacity);
    MulSucc(last, length);
    MulSucc(m - 1, most);
    MulSucc(m, most);
    assert forall b :: 0 <= b < m - 1 ==> bins[b] + length > capacity;
  }

  lemma {:induction false} EqualFill(n: nat, most: nat, length: nat, capacity: nat)
    requires n > 0 && most > 0 && FitsMost(most, length, capacity)
    ensures Filled(FirstFit(Equal(n, length), capacity), n, most, length)
  {
    assert Equal(n, length)[..n - 1] == Equal(n - 1, length);
    if n == 1 {
      assert FirstFit(Equal(1, length), capacity) == [length];
    } else {
      EqualFill(n - 1, most, length, capacity);
      FillStep(FirstFit(Equal(n - 1, length), capacity), n - 1, most, length, capacity);
    }
  }

  /** Equal positive lengths are packed into as few bins as possible. */
  lemma {:induction false} EqualOnesAreMinimal(n: nat, length: nat, capacity: nat)
    requires length > 0
    ensures Minimal(Equal(n, length), capacity)
  {
    var lengths, most := Equal(n, length), capacity / length;
    if length > capacity {
      LongOnesAreMinimal(lengths, capacity);
    } else if n > 0 {
      QuotientFits(length, capacity);
      EqualFill(n, most, length, capacity);
      var m := |FirstFit(lengths, capacity)|;
      forall where: seq<nat>, bins: nat | Packs(lengths, capacity, where, bins) ensures m <= bins {
        forall b | 0 <= b < bins ensures ItemsIn(where, bins, b) <= most {
          LoadOfEqual(n, length, where, bins, b);
          assert Loads(lengths, where, bins)[b] <= capacity;
          CountThatFits(ItemsIn(where, bins, b), most, length, capacity);
        }
        ItemsBound(where, bins, most);
        if bins <= m - 1 { MulMonotone(bins, m - 1, most); }
      }
    }
  }

  lemma {:induction false} QuotientFits(length: nat, capacity: nat)
    requires 0 < length <= capacity
    ensures capacity / length > 0 && FitsMost(capacity / length, length, capacity)
  {
    var q := capacity / length;
    assert capacity == q * length + capacity % length;
    MulSucc(q, length);
    assert q == 0 ==> q * length == 0;
  }

  /** The name promises a minimum; first fit may use more bins than needed, here three where two are enough. */
  lemma NotTheMinimum()
    ensures |FirstFit([1, 1, 2, 2], 3)| == 3
    ensures Packs([1, 1, 2, 2], 3, [0, 1, 0, 1], 2) && !Minimal([1, 1, 2, 2], 3)
  {
    FirstFitOfFour();
    PackingOfFour();
  }

  lemma FirstFitOfFour()
    ensures FirstFit([1, 1, 2, 2], 3) == [2, 2, 2]
  {
    FirstFitOfTwo();
    assert [1, 1] + [2] + [2] == [1, 1, 2, 2];
  }

  lemma FirstFitOfTwo()
    ensures FirstFit([1, 1], 3) == [2]
  {
    assert [] + [1] + [1] == [1, 1];
  }

  lemma PackingOfFour()
    ensures Packs([1, 1, 2, 2], 3, [0, 1, 0, 1], 2)
  {
    PackingOfTwo();
    var loads := [1, 1][0 := 1 + 2];
    assert [1, 1] + [2] + [2] == [1, 1, 2, 2] && [0, 1] + [0] + [1] == [0, 1, 0, 1];
  }

  lemma PackingOfTwo()
    ensures Loads([1, 1], [0, 1], 2) == [1, 1]
  {
    assert [] + [1] + [1] == [1, 1] && [] + [0] + [1] == [0, 1];
  }
}
