/**
  Trimming a rollout to the global batch size and splitting it over the data-parallel ranks
  (`miles/ray/rollout.py`), up to the view each rank builds of its own share (`miles/utils/data.py`).
 */
module DataParallel {
  import opened Arith
  import opened Options
  import opened Sequences
  import opened Balancing
  import opened Partitions

  // ---------------------------------------------------------------- trimming

  /** `_compute_dynamic_global_batch_size`: round down to a multiple of the ranks, but at least one each. */
  function DynamicGlobalBatchSize(numSamples: nat, dpSize: nat): nat
    requires dpSize > 0
  {
    var rounded := (numSamples / dpSize) * dpSize;
    if rounded == 0 then dpSize else rounded
  }

  /** The trimming in `_get_rollout_data`; `None` is the error for too few samples. */
  method Trim<T>(data: seq<T>, globalBatchSize: nat, dynamic: bool, dpSize: nat) returns (out: Option<seq<T>>)
    requires globalBatchSize > 0 && dpSize > 0 && data != []
    ensures out.None? <==> |data| < if dynamic then dpSize else globalBatchSize
    ensures out.Some? ==> out.value <= data && out.value != []
    ensures out.Some? && dynamic ==>
      |out.value| == DynamicGlobalBatchSize(|data|, dpSize) && |data| - |out.value| < dpSize
    ensures out.Some? && dynamic ==> |out.value| % dpSize == 0
    ensures out.Some? && !dynamic ==> |out.value| % globalBatchSize == 0 && |data| - |out.value| < globalBatchSize
  {
    var size := if dynamic then DynamicGlobalBatchSize(|data|, dpSize) else globalBatchSize;
    if dynamic {
      DynamicSize(|data|, dpSize);
    }
    RoundDown(|data|, size);
    if |data| % size != 0 {
      var trimLen := |data| / size * size;
      if trimLen == 0 { return None; }
      return Some(data[..trimLen]);
    }
    out := Some(data);
  }

  lemma {:induction false} RoundDown(n: nat, size: nat)
    requires size > 0
    ensures n / size * size == n - n % size && 0 <= n % size < size
    ensures n / size * size == 0 <==> n < size
    ensures (n / size * size) % size == 0
  {
    DivCancel(n / size, size);
    MulStrict(0, n / size, size);
  }

  /** One optimizer step: the dynamic size divides the trimmed data exactly once. */
  lemma {:induction false} DynamicSize(n: nat, dpSize: nat)
    requires dpSize > 0
    ensures var g := DynamicGlobalBatchSize(n, dpSize);
            && g > 0 && g % dpSize == 0
            && (n >= dpSize ==> g == n - n % dpSize && n / g == 1 && n / g * g == g)
            && (n < dpSize ==> g == dpSize)
  {
    RoundDown(n, dpSize);
    var g := DynamicGlobalBatchSize(n, dpSize);
    if n >= dpSize {
      assert g <= n < g + dpSize && dpSize <= g;
      QuotientUnique2(n, g);
    } else {
      DivCancel(1, dpSize);
    }
  }

  lemma QuotientUnique2(n: nat, g: nat)
    requires 0 < g <= n < 2 * g
    ensures n / g == 1
  {
    var q := n / g;
    MulStrict(q, 1, g);
    MulStrict(1, q, g);
    if q >= 2 { MulMonotone(2, q, g); }
  }

  // ---------------------------------------------------------------- the index lists

  /** The indices below n in residue class i. */
  function Residues(i: nat, n: nat, step: nat): seq<nat>
    requires step > 0
  {
    if n == 0 then [] else Residues(i, n - 1, step) + if (n - 1) % step == i then [n - 1] else []
  }

  /** No member of the class lies in [m, n). */
  lemma {:induction false} ResiduesSkip(i: nat, m: nat, n: nat, step: nat)
    requires step > 0 && m <= n
    requires forall x :: m <= x < n ==> x % step != i
    ensures Residues(i, n, step) == Residues(i, m, step)
    decreases n
  {
    if m < n { ResiduesSkip(i, m, n - 1, step); }
  }

  /** One step of the range. */
  lemma {:induction false} RangeStep(i: nat, x: nat, step: nat)
    requires i < step && x % step == i
    ensures Residues(i, x + step, step) == Residues(i, x, step) + [x] && (x + step) % step == i
  {
    forall y | x + 1 <= y < x + step ensures y % step != i { ResidueGap(x, y - x, step); }
    ResiduesSkip(i, x + 1, x + step, step);
    ResidueStep(x, step);
  }

  lemma SmallResidue(i: nat, step: nat)
    requires i < step
    ensures i % step == i && Residues(i, i, step) == []
  {
    forall y | 0 <= y < i ensures y % step != i { SmallModulus(y, step); }
    SmallModulus(i, step);
    ResiduesSkip(i, 0, i, step);
  }

  /** `range(i, n, dp_size)`, the split used when balancing is off. */
  method StridedRange(i: nat, n: nat, step: nat) returns (p: seq<nat>)
    requires i < step
    ensures p == Residues(i, n, step)
  {
    p := [];
    var x := i;
    SmallResidue(i, step);
    while x < n
      invariant x % step == i && p == Residues(i, x, step)
      invariant x == i || x - step < n
      decreases n - x
    {
      RangeStep(i, x, step);
      p := p + [x];
      x := x + step;
    }
    LastGap(i, x, n, step);
  }

  /** Stopping at the first member at or beyond n. */
  lemma {:induction false} LastGap(i: nat, x: nat, n: nat, step: nat)
    requires i < step && n <= x && x % step == i
    requires x == i || x - step < n
    ensures Residues(i, n, step) == Residues(i, x, step)
  {
    forall y | n <= y < x ensures y % step != i {
      if x == i { SmallModulus(y, step); } else { ResidueGap(y, x - y, step); }
    }
    ResiduesSkip(i, n, x, step);
  }

  lemma {:induction false} ResiduesAscending(i: nat, n: nat, step: nat)
    requires step > 0
    ensures AscendingBelow(Residues(i, n, step), n)
  {
    if n > 0 {
      ResiduesAscending(i, n - 1, step);
      AscendingAppend(Residues(i, n - 1, step), n - 1);
    }
  }

  function Strided(n: nat, step: nat): seq<seq<nat>>
    requires step > 0
  {
    seq(step, i requires 0 <= i < step => Residues(i, n, step))
  }

  lemma StridedStep(n: nat, step: nat) returns (m: nat)
    requires step > 0 && n > 0
    ensures m < step && |Strided(n - 1, step)| == step
    ensures Strided(n, step) == Strided(n - 1, step)[m := Strided(n - 1, step)[m] + [n - 1]]
  {
    m := (n - 1) % step;
    forall i | 0 <= i < step
      ensures Residues(i, n, step) == if i == m then Residues(i, n - 1, step) + [n - 1] else Residues(i, n - 1, step)
    {}
  }

  lemma CoverGrows(ps: seq<seq<nat>>, qs: seq<seq<nat>>, m: nat, n: nat)
    requires ExactCover(ps, n) && m < |ps| && qs == ps[m := ps[m] + [n]]
    ensures ExactCover(qs, n + 1)
  {
    CoverAppend(ps, m, n);
  }

  lemma EmptyCover(step: nat)
    requires step > 0
    ensures ExactCover(Strided(0, step), 0)
  {
    NoIndices(Strided(0, step));
  }

  lemma {:induction false} StridedCovers(n: nat, step: nat)
    requires step > 0
    ensures ExactCover(Strided(n, step), n)
  {
    if n == 0 {
      EmptyCover(step);
    } else {
      StridedCovers(n - 1, step);
      var m := StridedStep(n, step);
      CoverGrows(Strided(n - 1, step), Strided(n, step), m, n - 1);
    }
  }

  // ---------------------------------------------------------------- splitting

  /** What one rank is sent: its index list, its own rows, and the lengths of the whole batch. */
  datatype RankData = RankData(partition: seq<nat>, tokens: seq<seq<int>>, totalLengths: seq<nat>)

  /** What the rank works with after picking its own entries out of the length list. */
  datatype RankView = RankView(tokens: seq<seq<int>>, totalLengths: seq<nat>)

  function TotalLengths(tokens: seq<seq<int>>): seq<nat> {
    seq(|tokens|, i requires 0 <= i < |tokens| => |tokens[i]|)
  }

  ghost predicate Holds(tokens: seq<seq<int>>, rank: RankData) {
    && rank.totalLengths == TotalLengths(tokens)
    && |rank.tokens| == |rank.partition|
    && forall j :: 0 <= j < |rank.partition| ==>
      rank.partition[j] < |tokens| && rank.tokens[j] == tokens[rank.partition[j]]
  }

  function PartitionsOf(ranks: seq<RankData>): seq<seq<nat>> {
    seq(|ranks|, r requires 0 <= r < |ranks| => ranks[r].partition)
  }

  /** The index lists of `_split_train_data_by_dp`; `None` when the balancer rejects the batch. */
  method ChoosePartitions(tokens: seq<seq<int>>, dpSize: nat, balance: bool) returns (ps: Option<seq<seq<nat>>>)
    requires dpSize > 0
    ensures ps.None? <==> balance && (|tokens| < dpSize || |tokens| % dpSize != 0)
    ensures ps.Some? ==> |ps.value| == dpSize && ExactCover(ps.value, |tokens|)
    ensures ps.Some? ==> forall r :: 0 <= r < dpSize ==> StrictlyAscending(ps.value[r])
    ensures ps.Some? && balance ==> Balanced(TotalLengths(tokens), dpSize, true, ps.value)
    ensures ps.Some? && !balance ==> ps.value == Strided(|tokens|, dpSize)
  {
    if balance {
      ps := GetSeqlenBalancedPartitions(TotalLengths(tokens), dpSize, true);
    } else {
      var strided: seq<seq<nat>> := [];
      for i := 0 to dpSize
        invariant strided == Strided(|tokens|, dpSize)[..i]
      {
        var p := StridedRange(i, |tokens|, dpSize);
        strided := strided + [p];
      }
      assert strided == Strided(|tokens|, dpSize);
      StridedCovers(|tokens|, dpSize);
      forall r | 0 <= r < dpSize ensures StrictlyAscending(Strided(|tokens|, dpSize)[r]) {
        ResiduesAscending(r, |tokens|, dpSize);
      }
      ps := Some(strided);
    }
  }

  /** `_split_train_data_by_dp` for the per-token key and the length list. */
  method SplitTrainDataByDp(tokens: seq<seq<int>>, dpSize: nat, balance: bool) returns (out: Option<seq<RankData>>)
    requires dpSize > 0
    ensures out.None? <==> balance && (|tokens| < dpSize || |tokens| % dpSize != 0)
    ensures out.Some? ==> |out.value| == dpSize && ExactCover(PartitionsOf(out.value), |tokens|)
    ensures out.Some? ==> forall r :: 0 <= r < dpSize ==>
      Holds(tokens, out.value[r]) && StrictlyAscending(out.value[r].partition)
    ensures out.Some? && balance ==> Balanced(TotalLengths(tokens), dpSize, true, PartitionsOf(out.value))
  {
    var ps := ChoosePartitions(tokens, dpSize, balance);
    if ps.None? { return None; }
    var ranks: seq<RankData> := [];
    for i := 0 to dpSize
      invariant |ranks| == i
      invariant forall r :: 0 <= r < i ==> ranks[r].partition == ps.value[r] && Holds(tokens, ranks[r])
    {
      var rank := BuildRank(tokens, ps.value, i);
      ranks := ranks + [rank];
    }
    assert PartitionsOf(ranks) == ps.value;
    out := Some(ranks);
  }

  method BuildRank(tokens: seq<seq<int>>, ps: seq<seq<nat>>, i: nat) returns (rank: RankData)
    requires i < |ps| && ExactCover(ps, |tokens|)
    ensures rank.partition == ps[i] && Holds(tokens, rank)
  {
    var partition := ps[i];
    PartWithin(ps, i);
    var rows: seq<seq<int>> := [];
    for j := 0 to |partition|
      invariant |rows| == j
      invariant forall x :: 0 <= x < j ==> partition[x] < |tokens| && rows[x] == tokens[partition[x]]
    {
      assert partition[j] in multiset(partition);
      rows := rows + [tokens[partition[j]]];
    }
    rank := RankData(partition, rows, TotalLengths(tokens));
  }

  /** `process_rollout_data`: each length the rank keeps is the length of the row beside it. */
  method ProcessRolloutData(tokens: seq<seq<int>>, rank: RankData) returns (view: RankView)
    requires Holds(tokens, rank)
    ensures view.tokens == rank.tokens && |view.totalLengths| == |view.tokens|
    ensures forall j :: 0 <= j < |view.tokens| ==> view.totalLengths[j] == |view.tokens[j]|
  {
    var lengths: seq<nat> := [];
    for j := 0 to |rank.partition|
      invariant |lengths| == j
      invariant forall x :: 0 <= x < j ==> lengths[x] == |rank.tokens[x]|
    {
      lengths := lengths + [rank.totalLengths[rank.partition[j]]];
    }
    view := RankView(rank.tokens, lengths);
  }

  lemma {:induction false} CountedOnce(ps: seq<seq<nat>>, x: nat, a: nat, b: nat)
    requires a < |ps| && b < |ps| && x in ps[a] && x in ps[b]
    ensures a != b ==> AllIndices(ps)[x] >= 2
    ensures AllIndices(ps)[x] >= 1
  {
    if a == 0 {
      assert x in multiset(ps[0]);
      if b > 0 { CountedOnce(ps[1..], x, b - 1, b - 1); }
    } else if b == 0 {
      assert x in multiset(ps[0]);
      CountedOnce(ps[1..], x, a - 1, a - 1);
    } else {
      CountedOnce(ps[1..], x, a - 1, b - 1);
    }
  }

  lemma {:induction false} Owner(ps: seq<seq<nat>>, x: nat) returns (r: nat, j: nat)
    requires x in AllIndices(ps)
    ensures r < |ps| && j < |ps[r]| && ps[r][j] == x
  {
    if x in ps[0] {
      r := 0;
      j :| 0 <= j < |ps[0]| && ps[0][j] == x;
    } else {
      assert x !in multiset(ps[0]);
      r, j := Owner(ps[1..], x);
      r := r + 1;
    }
  }

  /**
    The ranks recombine to the batch: sample x sits at exactly one place of exactly one rank, and
    what sits there is row x.
   */
  lemma SampleHasOneOwner(tokens: seq<seq<int>>, ranks: seq<RankData>, x: nat) returns (r: nat, j: nat)
    requires x < |tokens| && ExactCover(PartitionsOf(ranks), |tokens|)
    requires forall r :: 0 <= r < |ranks| ==> Holds(tokens, ranks[r]) && StrictlyAscending(ranks[r].partition)
    ensures r < |ranks| && j < |ranks[r].partition| == |ranks[r].tokens|
    ensures ranks[r].partition[j] == x && ranks[r].tokens[j] == tokens[x]
    ensures forall r', j' :: 0 <= r' < |ranks| && 0 <= j' < |ranks[r'].partition| && ranks[r'].partition[j'] == x
              ==> r' == r && j' == j
  {
    var ps := PartitionsOf(ranks);
    r, j := Owner(ps, x);
    forall r', j' | 0 <= r' < |ranks| && 0 <= j' < |ranks[r'].partition| && ranks[r'].partition[j'] == x
      ensures r' == r && j' == j
    {
      assert x in ps[r'] && x in ps[r];
      CountedOnce(ps, x, r, r');
      var p := ranks[r'].partition;
      if r' == r { AscendingInjective(p, j, j'); }
    }
  }

  lemma AscendingInjective(p: seq<nat>, i: nat, j: nat)
    requires StrictlyAscending(p) && i < |p| && j < |p| && p[i] == p[j]
    ensures i == j
  {
  }

  /**
    With the dynamic batch size every rollout of at least `dpSize` samples survives trimming and balanced splitting.
   */
  method TrimAndSplit(tokens: seq<seq<int>>, dpSize: nat) returns (out: Option<seq<RankData>>)
    requires dpSize > 0 && tokens != []
    ensures out.None? <==> |tokens| < dpSize
    ensures out.Some? ==>
      var kept := |tokens| - |tokens| % dpSize;
      && |out.value| == dpSize && ExactCover(PartitionsOf(out.value), kept)
      && forall r :: 0 <= r < dpSize ==>
        Holds(tokens[..kept], out.value[r]) && |out.value[r].tokens| * dpSize == kept
  {
    var trimmed := Trim(tokens, 1, true, dpSize);
    if trimmed.None? { return None; }
    TrimmedSize(|tokens|, dpSize);
    out := SplitTrainDataByDp(trimmed.value, dpSize, true);
    if out.Some? {
      forall r | 0 <= r < dpSize ensures |out.value[r].tokens| * dpSize == |trimmed.value| {
        assert |PartitionsOf(out.value)[r]| * dpSize == |TotalLengths(trimmed.value)|;
      }
    }
  }

  lemma TrimmedSize(n: nat, dpSize: nat)
    requires dpSize > 0 && n >= dpSize
    ensures DynamicGlobalBatchSize(n, dpSize) == n - n % dpSize >= dpSize
  {
    DynamicSize(n, dpSize);
    RoundDown(n, dpSize);
    MulMonotone(1, n / dpSize, dpSize);
  }
}
