/**
  The all-gather branch of `HuggingfaceAttention.forward` (`miles_plugins/models/hf_attention.py`):
  every rank rebuilds the whole stream from all shards, and afterwards cuts its own part out again.
 */
module AllGather {
  import opened Arith
  import opened Options
  import opened Relayout

  ghost predicate AllEven(lens: seq<nat>) {
    forall i :: 0 <= i < |lens| ==> lens[i] % 2 == 0
  }

  // ---------------------------------------------------------------- rebuilding

  lemma {:induction false} ChunksSize<T>(perRank: seq<seq<T>>, c: nat, m: nat)
    requires AllOfSize(perRank, m) && c <= m
    ensures |Cat(ChunksOf(perRank, c))| == |perRank| * m
  {
    if perRank != [] {
      var inner := ChunksOf(perRank[1..], c);
      var first, last := perRank[0][..c], perRank[0][c..];
      assert ChunksOf(perRank, c) == ([first] + inner) + [last];
      ChunksSize(perRank[1..], c, m);
      CatSnoc([first] + inner, last);
      assert ([first] + inner)[1..] == inner;
      MulSucc(|perRank| - 1, m);
    }
  }

  /** What the rebuild loop makes of the shards; it treats every sequence as zigzag. */
  function WholeStream<T>(shards: seq<seq<T>>, lens: seq<nat>): (whole: seq<T>)
    requires IsSharded(shards, lens)
    ensures |whole| == GlobalTotal(lens, |shards|)
    decreases |lens|
  {
    if lens == [] then []
    else
      var heads := Heads(shards, lens[0]);
      ChunksSize(heads, lens[0] / 2, lens[0]);
      Cat(ChunksOf(heads, lens[0] / 2)) + WholeStream(Tails(shards, lens[0]), lens[1..])
  }

  /** With every length divisible by 2 * cpSize the rebuilt stream is the true one. */
  lemma {:induction false} WholeIsFull<T>(shards: seq<seq<T>>, lens: seq<nat>)
    requires IsSharded(shards, lens) && AllEven(lens)
    ensures WholeStream(shards, lens) == FullStream(shards, lens)
    decreases |lens|
  {
    if lens != [] {
      assert lens[0] % 2 == 0;
      WholeIsFull(Tails(shards, lens[0]), lens[1..]);
    }
  }

  /** Offsets of sequence i in a shard, as `cu_seqlens // cp_size` gives them. */
  lemma {:induction false} LocalOffset(cu: seq<nat>, cpSize: nat, i: nat)
    requires IsCumulative(cu) && cpSize > 0 && AllDivisible(cu, cpSize) && i < |cu|
    ensures cu[i] == cpSize * (cu[i] / cpSize)
    ensures i > 0 ==> cu[i] / cpSize == cu[i - 1] / cpSize + LocalLens(cu, cpSize)[i - 1]
  {
    if i == 0 {
      assert cpSize * 0 == 0;
      DivCancel(0, cpSize);
    } else {
      LocalOffset(cu, cpSize, i - 1);
      LensAt(cu, cpSize, i - 1);
      var a, m := cu[i - 1] / cpSize, LocalLens(cu, cpSize)[i - 1];
      Distribute(a, m, cpSize);
      DivModUnique(cu[i], cpSize, a + m, 0);
    }
  }

  ghost predicate RestAt<T>(gathered: seq<seq<T>>, rest: seq<seq<T>>, lo: nat) {
    && |rest| == |gathered|
    && forall r :: 0 <= r < |gathered| ==> lo <= |gathered[r]| && rest[r] == gathered[r][lo..]
  }

  /** `local_cu_seqlens = cu_seqlens // cp_size` */
  function LocalCu(cu: seq<nat>, cpSize: nat): seq<nat>
    requires cpSize > 0
  {
    seq(|cu|, i requires 0 <= i < |cu| => cu[i] / cpSize)
  }

  method ChunkSize(seqlen: nat, cpSize: nat, ghost m: nat) returns (c: nat)
    requires cpSize > 0 && seqlen == cpSize * m
    ensures c == m / 2 && c <= m
  {
    ZigzagTest(cpSize, m);
    c := seqlen / 2 / cpSize;
  }

  /** Offsets of one sequence as the loop computes them. */
  lemma {:induction false} SequenceSlots(cu: seq<nat>, cpSize: nat, i: nat)
    requires IsCumulative(cu) && cpSize > 0 && AllDivisible(cu, cpSize) && i < |cu| - 1
    ensures LocalCu(cu, cpSize)[i + 1] == LocalCu(cu, cpSize)[i] + LocalLens(cu, cpSize)[i]
    ensures cu[i + 1] - cu[i] == cpSize * LocalLens(cu, cpSize)[i]
  {
    LocalOffset(cu, cpSize, i + 1);
    LensAt(cu, cpSize, i);
  }

  /** The numbers the loop works with: global lengths, shard offsets and shares fit together. */
  ghost predicate Layout(cu: seq<nat>, localCu: seq<nat>, lens: seq<nat>, cpSize: nat) {
    && |cu| == |localCu| == |lens| + 1 && localCu[0] == 0
    && forall i :: 0 <= i < |lens| ==> SlotFits(cu[i], cu[i + 1], localCu[i], localCu[i + 1], lens[i], cpSize)
  }

  ghost predicate SlotFits(lo: nat, hi: nat, localLo: nat, localHi: nat, m: nat, cpSize: nat) {
    hi == lo + cpSize * m && localHi == localLo + m
  }

  lemma {:induction false} LayoutOf(cu: seq<nat>, cpSize: nat)
    requires IsCumulative(cu) && cpSize > 0 && AllDivisible(cu, cpSize)
    ensures Layout(cu, LocalCu(cu, cpSize), LocalLens(cu, cpSize), cpSize)
  {
    LocalOffset(cu, cpSize, 0);
    DivCancel(0, cpSize);
    forall i | 0 <= i < |cu| - 1
      ensures SlotFits(cu[i], cu[i + 1], LocalCu(cu, cpSize)[i], LocalCu(cu, cpSize)[i + 1], LocalLens(cu, cpSize)[i],
                       cpSize)
    {
      SequenceSlots(cu, cpSize, i);
    }
  }

  method RebuildAll<T>(gathered: seq<seq<T>>, cu: seq<nat>, localCu: seq<nat>, ghost lens: seq<nat>)
    returns (whole: seq<T>)
    requires gathered != [] && Layout(cu, localCu, lens, |gathered|) && IsSharded(gathered, lens)
    ensures whole == WholeStream(gathered, lens)
  {
    var parts: seq<seq<T>> := [];
    ghost var rest := gathered;
    for i := 0 to |cu| - 1
      invariant RestAt(gathered, rest, localCu[i]) && IsSharded(rest, lens[i..])
      invariant Cat(parts) + WholeStream(rest, lens[i..]) == WholeStream(gathered, lens)
    {
      assert SlotFits(cu[i], cu[i + 1], localCu[i], localCu[i + 1], lens[i], |gathered|);
      var part := RebuildOne(gathered, localCu[i], localCu[i + 1], cu[i + 1] - cu[i], rest, lens[i]);
      RebuildStep(parts, rest, lens, i, part);
      parts, rest := parts + [part], Tails(rest, lens[i]);
    }
    whole := Cat(parts);
  }

  lemma RebuildStep<T>(done: seq<seq<T>>, rest: seq<seq<T>>, lens: seq<nat>, i: nat, part: seq<T>)
    requires i < |lens| && IsSharded(rest, lens[i..]) && LocalTotal(lens[i..]) == lens[i] + LocalTotal(lens[i + 1..])
    requires part == Cat(ChunksOf(Heads(rest, lens[i]), lens[i] / 2))
    ensures IsSharded(Tails(rest, lens[i]), lens[i + 1..])
    ensures Cat(done + [part]) + WholeStream(Tails(rest, lens[i]), lens[i + 1..])
        == Cat(done) + WholeStream(rest, lens[i..])
  {
    CatSnoc(done, part);
    ConcatAssociates(Cat(done), part, WholeStream(Tails(rest, lens[i]), lens[i + 1..]));
  }

  /** The slices of one sequence: first parts in rank order, second parts in reverse. */
  method RebuildOne<T>(gathered: seq<seq<T>>, lo: nat, hi: nat, seqlen: nat, ghost rest: seq<seq<T>>, ghost m: nat)
    returns (part: seq<T>)
    requires gathered != [] && seqlen == |gathered| * m && hi == lo + m && RestAt(gathered, rest, lo)
    requires forall r :: 0 <= r < |gathered| ==> hi <= |gathered[r]|
    ensures part == Cat(ChunksOf(Heads(rest, m), m / 2))
  {
    var c := ChunkSize(seqlen, |gathered|, m);
    var first: seq<seq<T>> := [];
    var second: seq<seq<T>> := [];
    for r := 0 to |gathered|
      invariant |first| == |second| == r
      invariant forall x :: 0 <= x < r ==> first[x] == rest[x][..m][..c] && second[r - 1 - x] == rest[x][..m][c..]
    {
      first, second := first + [gathered[r][lo..lo + c]], [gathered[r][lo + c..hi]] + second;
    }
    assert first + second == ChunksOf(Heads(rest, m), c);
    part := Cat(first + second);
  }

  // ---------------------------------------------------------------- cutting out again

  /** `torch.split` with a chunk size: full chunks and possibly a short last one. */
  function SplitMax<T>(s: seq<T>, q: nat): seq<seq<T>>
    requires q > 0
  {
    if |s| <= q then [s] else [s[..q]] + SplitMax(s[q..], q)
  }

  /** `torch.chunk`: at most n chunks of the rounded-up size. */
  function TorchChunk<T>(s: seq<T>, n: nat): seq<seq<T>>
    requires n > 0 && s != []
  {
    SplitMax(s, (|s| + n - 1) / n)
  }

  lemma {:induction false} SplitMaxEven<T>(s: seq<T>, q: nat, n: nat)
    requires q > 0 && n > 0 && |s| == n * q
    ensures SplitMax(s, q) == Cut(s, q, n)
    decreases n
  {
    MulSucc(n - 1, q);
    if n == 1 {
      assert s[..q] == s;
    } else {
      MulMonotone(1, n - 1, q);
      SplitMaxEven(s[q..], q, n - 1);
    }
  }

  /** Chunk i starts i * q tokens in and fits into what is left. */
  lemma {:induction false} SplitMaxBounds<T>(s: seq<T>, q: nat, i: nat)
    requires q > 0 && i < |SplitMax(s, q)|
    ensures |SplitMax(s, q)[i]| <= q && i * q + |SplitMax(s, q)[i]| <= |s|
    decreases i
  {
    if i > 0 {
      SplitMaxBounds(s[q..], q, i - 1);
      MulSucc(i - 1, q);
    }
  }

  lemma {:induction false} EvenChunkSize(cpSize: nat, m: nat)
    requires cpSize > 0 && m % 2 == 0
    ensures (cpSize * m + 2 * cpSize - 1) / (2 * cpSize) == m / 2
  {
    HalvesAndRest(cpSize, m, m / 2, 0);
    DivModUnique(cpSize * m + 2 * cpSize - 1, 2 * cpSize, m / 2, 2 * cpSize - 1);
  }

  lemma {:induction false} OddChunkSize(cpSize: nat, m: nat)
    requires cpSize > 0 && m % 2 == 1
    ensures (cpSize * m + 2 * cpSize - 1) / (2 * cpSize) == (m + 1) / 2
  {
    HalvesAndRest(cpSize, m, m / 2, cpSize);
    MulSucc(m / 2, 2 * cpSize);
    DivModUnique(cpSize * m + 2 * cpSize - 1, 2 * cpSize, m / 2 + 1, cpSize - 1);
  }

  /** Rank 0's two chunks of an odd sequence are too short. */
  lemma {:induction false} OddTooShort(cpSize: nat, m: nat, q: nat, first: nat, last: nat)
    requires cpSize >= 2 && m % 2 == 1 && q == (m + 1) / 2
    requires first <= q && (2 * cpSize - 1) * q + last <= cpSize * m
    ensures first + last < m
  {
    assert 2 * q == m + 1;
    assert (2 * cpSize - 1) * q == cpSize * (2 * q) - q;
    assert cpSize * (m + 1) == cpSize * m + cpSize;
  }

  /** The two chunks a rank takes from one sequence; `None` when there are too few chunks. */
  method ResliceOne<T>(full: seq<T>, cpSize: nat, r: nat, ghost m: nat) returns (piece: Option<seq<T>>)
    requires r < cpSize && |full| == cpSize * m > 0
    ensures m % 2 == 0 ==> piece == Some(ToLocal(full, cpSize, m, r))
    ensures m % 2 == 1 && r == 0 && cpSize >= 2 && piece.Some? ==> |piece.value| < m
  {
    var chunks := TorchChunk(full, 2 * cpSize);
    if m % 2 == 0 {
      EvenChunkSize(cpSize, m);
      HalfChunks(cpSize, m);
      SplitMaxEven(full, m / 2, 2 * cpSize);
    }
    if r >= |chunks| || 2 * cpSize - 1 - r >= |chunks| { return None; }
    if m % 2 == 1 && r == 0 && cpSize >= 2 {
      OddChunkSize(cpSize, m);
      SplitMaxBounds(full, (m + 1) / 2, 0);
      SplitMaxBounds(full, (m + 1) / 2, 2 * cpSize - 1);
      OddTooShort(cpSize, m, (m + 1) / 2, |chunks[0]|, |chunks[2 * cpSize - 1]|);
    }
    piece := Some(chunks[r] + chunks[2 * cpSize - 1 - r]);
  }

  /** The re-slicing loop on rank r. */
  method ResliceAll<T>(output: seq<T>, cu: seq<nat>, cpSize: nat, r: nat, ghost lens: seq<nat>)
    returns (out: Option<seq<T>>)
    requires IsCumulative(cu) && r < cpSize && AllDivisible(cu, cpSize) && lens == LocalLens(cu, cpSize)
    requires |output| == GlobalTotal(lens, cpSize)
    ensures AllEven(lens) ==> out == Some(LocalStream(output, lens, cpSize, r))
    ensures r == 0 && cpSize >= 2 && !AllEven(lens) && out.Some? ==> |out.value| < LocalTotal(lens)
  {
    var acc: seq<T> := [];
    var rest := output;
    for i := 0 to |cu| - 1
      invariant |rest| == GlobalTotal(lens[i..], cpSize)
      invariant AllEven(lens[..i]) ==>
          acc + LocalStream(rest, lens[i..], cpSize, r) == LocalStream(output, lens, cpSize, r)
      invariant r == 0 && cpSize >= 2 ==> |acc| + LocalTotal(lens[i..]) <= LocalTotal(lens)
      invariant r == 0 && cpSize >= 2 && !AllEven(lens[..i]) ==> |acc| + LocalTotal(lens[i..]) < LocalTotal(lens)
    {
      LensAt(cu, cpSize, i);
      ScatterSizes(rest, lens, cpSize, i);
      var g := cu[i + 1] - cu[i];
      EvenSnoc(lens, i);
      var piece := ResliceOne(rest[..g], cpSize, r, lens[i]);
      if piece.None? { return None; }
      ResliceStep(acc, rest, lens, cpSize, r, i, piece.value, g);
      acc, rest := acc + piece.value, rest[g..];
    }
    assert lens[..|lens|] == lens && lens[|lens|..] == [];
    assert acc + [] == acc;
    out := Some(acc);
  }

  lemma EvenSnoc(lens: seq<nat>, i: nat)
    requires i < |lens|
    ensures AllEven(lens[..i + 1]) <==> AllEven(lens[..i]) && lens[i] % 2 == 0
    ensures AllEven(lens) ==> lens[i] % 2 == 0
    ensures LocalTotal(lens[i..]) == lens[i] + LocalTotal(lens[i + 1..])
  {
    assert lens[..i + 1] == lens[..i] + [lens[i]];
    if AllEven(lens[..i + 1]) {
      assert lens[..i + 1][i] % 2 == 0;
      forall j | 0 <= j < i ensures lens[..i][j] % 2 == 0 { assert lens[..i + 1][j] % 2 == 0; }
    }
  }

  lemma ResliceStep<T>(acc: seq<T>, rest: seq<T>, lens: seq<nat>, cpSize: nat, r: nat, i: nat, piece: seq<T>, g: nat)
    requires i < |lens| && r < cpSize && g == cpSize * lens[i] <= |rest|
    requires |rest| == GlobalTotal(lens[i..], cpSize) && |rest| - g == GlobalTotal(lens[i + 1..], cpSize)
    ensures piece == ToLocal(rest[..g], cpSize, lens[i], r) ==>
      (acc + piece) + LocalStream(rest[g..], lens[i + 1..], cpSize, r) == acc + LocalStream(rest, lens[i..], cpSize, r)
    ensures lens[i] % 2 == 0 && piece == ToLocal(rest[..g], cpSize, lens[i], r) ==> |piece| == lens[i]
  {
  }

  /**
    The whole branch with the layer itself taken as the identity.  Rebuilding and re-slicing returns
    every rank's shard when each sequence length is divisible by `2 * cpSize`; and already rank 0
    fails, by an index error or a short result, as soon as one length is not.
   */
  method AllGatherForward<T>(gathered: seq<seq<T>>, cu: seq<nat>, r: nat) returns (whole: seq<T>, out: Option<seq<T>>)
    requires IsCumulative(cu) && |gathered| >= 2 && r < |gathered| && AllDivisible(cu, |gathered|)
    requires IsSharded(gathered, LocalLens(cu, |gathered|))
    ensures AllEven(LocalLens(cu, |gathered|)) ==> whole == FullStream(gathered, LocalLens(cu, |gathered|))
    ensures AllEven(LocalLens(cu, |gathered|)) ==> out == Some(gathered[r])
    ensures r == 0 ==>
      (out.Some? && |out.value| == |gathered[0]| <==> AllEven(LocalLens(cu, |gathered|)))
  {
    ghost var lens := LocalLens(cu, |gathered|);
    LayoutOf(cu, |gathered|);
    whole := RebuildAll(gathered, cu, LocalCu(cu, |gathered|), lens);
    if AllEven(lens) {
      WholeIsFull(gathered, lens);
      LocalOfFullStream(gathered, lens, r);
    }
    out := ResliceAll(whole, cu, |gathered|, r, lens);
  }

  /** The smallest failure: one sequence of two tokens on two ranks, of which rank 0 does not get its token back. */
  method OddShare() returns (out: Option<seq<int>>)
    ensures out.None? || |out.value| != 1
  {
    var gathered, cu := [[1], [2]], [0, 2];
    assert LocalLens(cu, 2) == [1];
    var whole;
    whole, out := AllGatherForward(gathered, cu, 0);
  }

  /** Divisibility of the global lengths by 2 * cpSize, the condition a caller can check, is evenness of the shares. */
  lemma EvenMeansDivisible(cu: seq<nat>, cpSize: nat)
    requires IsCumulative(cu) && cpSize > 0 && AllDivisible(cu, cpSize)
    ensures AllEven(LocalLens(cu, cpSize)) <==>
      forall i :: 0 <= i < |cu| - 1 ==> (cu[i + 1] - cu[i]) % (2 * cpSize) == 0
  {
    forall i | 0 <= i < |cu| - 1
      ensures LocalLens(cu, cpSize)[i] % 2 == 0 <==> (cu[i + 1] - cu[i]) % (2 * cpSize) == 0
    {
      LensAt(cu, cpSize, i);
      ZigzagTest(cpSize, LocalLens(cu, cpSize)[i]);
    }
  }
}
