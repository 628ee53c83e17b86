/**
  Generalized advantage estimation (`miles/utils/ppo_utils.py`).

  Tensors are sequences of reals and every `[B, T]` operation of the source acts on each row
  alone, so the kernels are modelled one row at a time and the batch wrapper runs them row by row.
  The reference everything is proved against is `Advantage`, the closed discounted sum of
  temporal-difference residuals; no kernel computes it that way.
 */
module Gae {
  import opened Arith
  import opened Options

  // ---------------------------------------------------------------- reference definitions

  function Pow(x: real, n: nat): real {
    if n == 0 then 1.0 else x * Pow(x, n - 1)
  }

  function Zeros(n: nat): seq<real> {
    seq(n, _ => 0.0)
  }

  function Reverse(s: seq<real>): seq<real> {
    seq(|s|, i requires 0 <= i < |s| => s[|s| - 1 - i])
  }

  /** The residual r_t + gamma * V_{t+1} - V_t, the value after the last step being zero. */
  function Delta(rewards: seq<real>, values: seq<real>, gamma: real, t: nat): real
    requires |rewards| == |values| && t < |rewards|
  {
    rewards[t] + gamma * (if t + 1 < |values| then values[t + 1] else 0.0) - values[t]
  }

  function Deltas(rewards: seq<real>, values: seq<real>, gamma: real): seq<real>
    requires |rewards| == |values|
  {
    seq(|rewards|, t requires 0 <= t < |rewards| => Delta(rewards, values, gamma, t))
  }

  /** d[t] + w * d[t+1] + ... + w^(n-1) * d[t+n-1] */
  function DiscountedSum(d: seq<real>, w: real, t: nat, n: nat): real
    requires t + n <= |d|
  {
    if n == 0 then 0.0 else DiscountedSum(d, w, t, n - 1) + Pow(w, n - 1) * d[t + n - 1]
  }

  /** The advantage at time t: the sum over all later residuals, discounted by gamma * lambda. */
  function Advantage(rewards: seq<real>, values: seq<real>, gamma: real, lambd: real, t: nat): real
    requires |rewards| == |values| && t < |rewards|
  {
    DiscountedSum(Deltas(rewards, values, gamma), gamma * lambd, t, |rewards| - t)
  }

  function SumFrom(s: seq<real>, t: nat): real
    requires t <= |s|
    decreases |s| - t
  {
    if t == |s| then 0.0 else s[t] + SumFrom(s, t + 1)
  }

  ghost predicate AreAdvantages(rewards: seq<real>, values: seq<real>, gamma: real, lambd: real, adv: seq<real>) {
    && |rewards| == |values| == |adv|
    && forall t :: 0 <= t < |adv| ==> adv[t] == Advantage(rewards, values, gamma, lambd, t)
  }

  ghost predicate AreReturns(values: seq<real>, adv: seq<real>, ret: seq<real>) {
    && |values| == |adv| == |ret|
    && forall t :: 0 <= t < |ret| ==> ret[t] == adv[t] + values[t]
  }

  // ---------------------------------------------------------------- the recurrence

  lemma {:induction false} DiscountedSumStep(d: seq<real>, w: real, t: nat, n: nat)
    requires n > 0 && t + n <= |d|
    ensures DiscountedSum(d, w, t, n) == d[t] + w * DiscountedSum(d, w, t + 1, n - 1)
  {
    if n > 1 {
      DiscountedSumStep(d, w, t, n - 1);
      var inner := DiscountedSum(d, w, t + 1, n - 2);
      var p, x := Pow(w, n - 2), d[t + n - 1];
      assert DiscountedSum(d, w, t + 1, n - 1) == inner + p * x;
      assert w * (inner + p * x) == w * inner + (w * p) * x;
    }
  }

  /** The backward recurrence A_t = delta_t + gamma * lambda * A_{t+1} that the serial kernels run. */
  lemma AdvantageStep(rewards: seq<real>, values: seq<real>, gamma: real, lambd: real, t: nat)
    requires |rewards| == |values| && t < |rewards|
    ensures Advantage(rewards, values, gamma, lambd, t)
         == Delta(rewards, values, gamma, t)
          + gamma * lambd * (if t + 1 < |rewards| then Advantage(rewards, values, gamma, lambd, t + 1) else 0.0)
  {
    DiscountedSumStep(Deltas(rewards, values, gamma), gamma * lambd, t, |rewards| - t);
  }

  // ---------------------------------------------------------------- serial kernels

  /** One row of `vanilla_gae`; stacking no columns is an error there, so the row is not empty. */
  method VanillaGae(rewards: seq<real>, values: seq<real>, gamma: real, lambd: real)
    returns (adv: seq<real>, ret: seq<real>)
    requires |rewards| == |values| > 0
    ensures AreAdvantages(rewards, values, gamma, lambd, adv)
    ensures AreReturns(values, adv, ret)
  {
    var T := |rewards|;
    var lastgaelam := 0.0;
    var advRev: seq<real> := [];
    for t := T downto 0
      invariant |advRev| == T - t
      invariant forall i :: 0 <= i < |advRev| ==> advRev[i] == Advantage(rewards, values, gamma, lambd, T - 1 - i)
      invariant lastgaelam == if t < T then Advantage(rewards, values, gamma, lambd, t) else 0.0
    {
      var nextValue := if t < T - 1 then values[t + 1] else 0.0;
      var delta := rewards[t] + gamma * nextValue - values[t];
      AdvantageStep(rewards, values, gamma, lambd, t);
      lastgaelam := delta + gamma * lambd * lastgaelam;
      advRev := advRev + [lastgaelam];
    }
    adv := Reverse(advRev);
    ret := seq(T, t requires 0 <= t < T => adv[t] + values[t]);
  }

  /** `get_advantages_and_returns` for one unpadded sample, without context parallelism. */
  method GetAdvantagesAndReturns(responseLen: nat, values: seq<real>, rewards: seq<real>, gamma: real, lambd: real)
    returns (adv: seq<real>, ret: seq<real>)
    requires |rewards| == |values| == responseLen
    ensures AreAdvantages(rewards, values, gamma, lambd, adv)
    ensures AreReturns(values, adv, ret)
  {
    var lastgaelam := 0.0;
    var advantagesReversed: seq<real> := [];
    for t := responseLen downto 0
      invariant |advantagesReversed| == responseLen - t
      invariant forall i :: 0 <= i < |advantagesReversed| ==>
        advantagesReversed[i] == Advantage(rewards, values, gamma, lambd, responseLen - 1 - i)
      invariant lastgaelam == if t < responseLen then Advantage(rewards, values, gamma, lambd, t) else 0.0
    {
      var nextValues := if t < responseLen - 1 then values[t + 1] else 0.0;
      var delta := rewards[t] + gamma * nextValues - values[t];
      AdvantageStep(rewards, values, gamma, lambd, t);
      lastgaelam := delta + gamma * lambd * lastgaelam;
      advantagesReversed := advantagesReversed + [lastgaelam];
    }
    adv := Reverse(advantagesReversed);
    ret := seq(responseLen, t requires 0 <= t < responseLen => adv[t] + values[t]);
  }

  // ---------------------------------------------------------------- the chunked scan

  /** The sequential scan S[i] = d[i] + w * S[i-1] which the chunked kernel must reproduce. */
  function Scan(d: seq<real>, w: real, i: nat): real
    requires i < |d|
  {
    if i == 0 then d[0] else d[i] + w * Scan(d, w, i - 1)
  }

  /** State carried into position i. */
  function Carry(d: seq<real>, w: real, i: nat): real
    requires i <= |d|
  {
    if i == 0 then 0.0 else Scan(d, w, i - 1)
  }

  /** Entry M[i, j] of the intra-chunk matrix; the scalar path treats w == 0 apart, the per-row path does not. */
  function KernelEntry(rowwise: bool, w: real, i: nat, j: nat): real {
    if j < i then 0.0
    else if !rowwise && w == 0.0 then (if i == j then 1.0 else 0.0)
    else Pow(w, j - i)
  }

  /** Entry `pow_vec[j]`, the weight of the carried state. */
  function CarryWeight(rowwise: bool, w: real, j: nat): real {
    if !rowwise && w == 0.0 then 0.0 else Pow(w, j + 1)
  }

  /** First n terms of the product of a chunk with column j of the matrix. */
  function ColumnProduct(chunk: seq<real>, rowwise: bool, w: real, j: nat, n: nat): real
    requires n <= |chunk|
  {
    if n == 0 then 0.0
    else ColumnProduct(chunk, rowwise, w, j, n - 1) + chunk[n - 1] * KernelEntry(rowwise, w, n - 1, j)
  }

  /** Local product plus weighted carry. */
  function ChunkEntry(chunk: seq<real>, rowwise: bool, w: real, j: nat, carry: real): real {
    ColumnProduct(chunk, rowwise, w, j, |chunk|) + carry * CarryWeight(rowwise, w, j)
  }

  lemma PowOfZero(n: nat)
    ensures Pow(0.0, n) == if n == 0 then 1.0 else 0.0
  {
  }

  /** Both constructions of the matrix give the same entries, w == 0 included. */
  lemma KernelIsPower(rowwise: bool, w: real, i: nat, j: nat)
    ensures KernelEntry(rowwise, w, i, j) == if j < i then 0.0 else Pow(w, j - i)
    ensures CarryWeight(rowwise, w, j) == Pow(w, j + 1)
  {
    if w == 0.0 {
      PowOfZero(j + 1);
      if i <= j { PowOfZero(j - i); }
    }
  }

  /** Moving one column to the right multiplies the terms above the diagonal by w. */
  lemma {:induction false} ColumnShift(chunk: seq<real>, rowwise: bool, w: real, j: nat, n: nat)
    requires n <= |chunk| && n <= j + 1
    ensures ColumnProduct(chunk, rowwise, w, j + 1, n) == w * ColumnProduct(chunk, rowwise, w, j, n)
  {
    if n > 0 {
      ColumnShift(chunk, rowwise, w, j, n - 1);
    }
  }

  /** Terms below the diagonal contribute nothing: padding after position j is never seen. */
  lemma {:induction false} ColumnTail(chunk: seq<real>, rowwise: bool, w: real, j: nat, n: nat)
    requires j + 1 <= n <= |chunk|
    ensures ColumnProduct(chunk, rowwise, w, j, n) == ColumnProduct(chunk, rowwise, w, j, j + 1)
    decreases n
  {
    if n > j + 1 {
      ColumnTail(chunk, rowwise, w, j, n - 1);
    }
  }

  /** One more position of the local scan. */
  lemma ColumnStep(chunk: seq<real>, rowwise: bool, w: real, j: nat)
    requires 0 < j < |chunk|
    ensures ColumnProduct(chunk, rowwise, w, j, |chunk|)
        == w * ColumnProduct(chunk, rowwise, w, j - 1, |chunk|) + chunk[j]
  {
    ColumnTail(chunk, rowwise, w, j, |chunk|);
    ColumnTail(chunk, rowwise, w, j - 1, |chunk|);
    ColumnShift(chunk, rowwise, w, j - 1, j);
    KernelIsPower(rowwise, w, j, j);
    assert KernelEntry(rowwise, w, j, j) == 1.0;
  }

  lemma CarryWeightStep(rowwise: bool, w: real, j: nat)
    ensures CarryWeight(rowwise, w, j) == if j == 0 then w else w * CarryWeight(rowwise, w, j - 1)
  {
    KernelIsPower(rowwise, w, j, j);
    if j == 0 {
      assert Pow(w, 1) == w * Pow(w, 0);
    } else {
      KernelIsPower(rowwise, w, j - 1, j - 1);
    }
  }

  lemma FirstColumn(chunk: seq<real>, rowwise: bool, w: real)
    requires |chunk| > 0
    ensures ColumnProduct(chunk, rowwise, w, 0, |chunk|) == chunk[0]
  {
    ColumnTail(chunk, rowwise, w, 0, |chunk|);
    KernelIsPower(rowwise, w, 0, 0);
    assert ColumnProduct(chunk, rowwise, w, 0, 0) == 0.0;
    assert KernelEntry(rowwise, w, 0, 0) == 1.0;
  }

  /** Over a chunk, local products plus weighted carry satisfy the recurrence of the sequential scan. */
  lemma EntryStep(chunk: seq<real>, rowwise: bool, w: real, j: nat, carry: real)
    requires j < |chunk|
    ensures ChunkEntry(chunk, rowwise, w, j, carry)
         == w * (if j == 0 then carry else ChunkEntry(chunk, rowwise, w, j - 1, carry)) + chunk[j]
  {
    CarryWeightStep(rowwise, w, j);
    if j == 0 {
      FirstColumn(chunk, rowwise, w);
    } else {
      ColumnStep(chunk, rowwise, w, j);
    }
  }

  lemma {:induction false} ScanStep(d: seq<real>, w: real, i: nat)
    requires i < |d|
    ensures Scan(d, w, i) == w * Carry(d, w, i) + d[i]
  {
    if i == 0 { assert w * 0.0 == 0.0; }
  }

  /** Inside the chunk that starts at `start`, local product plus weighted carry is the sequential scan. */
  lemma {:induction false} ChunkIsScan(d: seq<real>, rowwise: bool, w: real, start: nat, size: nat, j: nat)
    requires j < size && start + size <= |d|
    ensures ChunkEntry(d[start..start + size], rowwise, w, j, Carry(d, w, start)) == Scan(d, w, start + j)
    decreases j
  {
    var chunk, carry := d[start..start + size], Carry(d, w, start);
    EntryStep(chunk, rowwise, w, j, carry);
    ScanStep(d, w, start + j);
    if j > 0 {
      ChunkIsScan(d, rowwise, w, start, size, j - 1);
      assert ChunkEntry(chunk, rowwise, w, j - 1, carry) == Carry(d, w, start + j);
    }
    assert chunk[j] == d[start + j];
  }

  /** Scanning the reversed residuals forwards gives the advantages backwards; later padding is not seen. */
  lemma {:induction false} ScanOfReverse(d: seq<real>, pad: nat, w: real, i: nat)
    requires i < |d|
    ensures Scan(Reverse(d) + Zeros(pad), w, i) == DiscountedSum(d, w, |d| - 1 - i, i + 1)
  {
    DiscountedSumStep(d, w, |d| - 1 - i, i + 1);
    if i > 0 {
      ScanOfReverse(d, pad, w, i - 1);
    }
  }

  ghost predicate IsScanUpTo(sRev: array<real>, d: seq<real>, w: real, n: int)
    reads sRev
  {
    sRev.Length == |d| && n <= |d| && forall i :: 0 <= i < n ==> sRev[i] == Scan(d, w, i)
  }

  /** One pass of the chunk loop: local products plus the weighted carry, and the carry for the next chunk. */
  method ScanChunk(sRev: array<real>, d: seq<real>, rowwise: bool, w: real, start: nat, size: nat, len: nat,
                   sPrev: real)
    returns (next: real)
    requires 0 < len <= size && start + size <= |d|
    requires IsScanUpTo(sRev, d, w, start) && sPrev == Carry(d, w, start)
    modifies sRev
    ensures IsScanUpTo(sRev, d, w, start + len)
    ensures next == Carry(d, w, start + len)
  {
    var chunk := d[start..start + size];
    for j := 0 to len
      invariant IsScanUpTo(sRev, d, w, start + j)
    {
      ChunkIsScan(d, rowwise, w, start, size, j);
      sRev[start + j] := ChunkEntry(chunk, rowwise, w, j, sPrev);
    }
    next := sRev[start + len - 1];
  }

  /** Length of the padding and number of chunks for a row of length T. */
  method ChunkPlan(T: nat, size: nat) returns (pad: nat, n: nat)
    requires size > 0
    ensures pad < size && n * size == T + pad
    ensures n == 0 ==> T == 0
  {
    pad := if T % size != 0 then size - T % size else 0;
    n := (T + pad) / size;
    var q := if T % size != 0 then T / size + 1 else T / size;
    assert T + pad == q * size;
    DivCancel(q, size);
  }

  /** Only the last chunk is short, and it ends exactly at the unpadded length. */
  lemma {:induction false} LastChunk(T: nat, size: nat, pad: nat, n: nat, c: nat, start: nat)
    requires pad < size && n * size == T + pad && c < n && start == c * size
    ensures start + size == (c + 1) * size
    ensures c == n - 1 ==> start + size == T + pad
    ensures c < n - 1 ==> start + size <= T
  {
    MulSucc(c, size);
    if c < n - 1 { SlotInBlocks(c + 1, 0, n, size); }
  }

  /** The sequential part: chunk after chunk, the state carried from one to the next; padding is cut off. */
  method ScanInChunks(deltasRev: seq<real>, T: nat, rowwise: bool, w: real, chunkSize: nat, pad: nat, nChunks: nat)
    returns (unpadded: seq<real>)
    requires pad < chunkSize && nChunks * chunkSize == T + pad == |deltasRev|
    ensures |unpadded| == T && forall i :: 0 <= i < T ==> unpadded[i] == Scan(deltasRev, w, i)
  {
    var sRev := new real[|deltasRev|](_ => 0.0);
    var sPrev := 0.0;
    var start: nat := 0;
    for c := 0 to nChunks
      invariant start == c * chunkSize
      invariant IsScanUpTo(sRev, deltasRev, w, Min(start, T))
      invariant if c < nChunks then start <= T && sPrev == Carry(deltasRev, w, start) else start >= T
    {
      LastChunk(T, chunkSize, pad, nChunks, c, start);
      var len := if pad > 0 && c == nChunks - 1 then chunkSize - pad else chunkSize;
      sPrev := ScanChunk(sRev, deltasRev, rowwise, w, start, chunkSize, len, sPrev);
      start := start + chunkSize;
    }
    unpadded := sRev[..T];
  }

  /** Residuals built from the values shifted left by one with a zero at the end. */
  method ShiftedDeltas(rewards: seq<real>, values: seq<real>, gamma: real) returns (deltas: seq<real>)
    requires |rewards| == |values|
    ensures deltas == Deltas(rewards, values, gamma)
  {
    var nextValues := (if values == [] then [] else values[1..]) + [0.0];
    deltas := seq(|rewards|, t requires 0 <= t < |rewards| => rewards[t] + gamma * nextValues[t] - values[t]);
    forall t | 0 <= t < |rewards| ensures deltas[t] == Delta(rewards, values, gamma, t) {
      assert nextValues[t] == if t + 1 < |values| then values[t + 1] else 0.0;
    }
  }

  /** One row of `chunked_gae`. */
  method ChunkedGae(rewards: seq<real>, values: seq<real>, gamma: real, lambd: real, rowwise: bool, chunkSize: nat)
    returns (adv: seq<real>, ret: seq<real>)
    requires |rewards| == |values| && chunkSize > 0
    ensures AreAdvantages(rewards, values, gamma, lambd, adv)
    ensures AreReturns(values, adv, ret)
  {
    var T := |rewards|;
    var deltas := ShiftedDeltas(rewards, values, gamma);
    var w := gamma * lambd;
    var pad, nChunks := ChunkPlan(T, chunkSize);
    var deltasRev := Reverse(deltas) + Zeros(pad);
    var sRev := ScanInChunks(deltasRev, T, rowwise, w, chunkSize, pad, nChunks);
    adv := Reverse(sRev);
    forall t | 0 <= t < T ensures adv[t] == Advantage(rewards, values, gamma, lambd, t) {
      ScanOfReverse(deltas, pad, w, T - 1 - t);
    }
    ret := seq(T, t requires 0 <= t < T => adv[t] + values[t]);
  }

  /** The fast kernel and the serial one give the same answers on every row. */
  method KernelsAgree(rewards: seq<real>, values: seq<real>, gamma: real, lambd: real, rowwise: bool, chunkSize: nat)
    returns (serial: (seq<real>, seq<real>), chunked: (seq<real>, seq<real>))
    requires |rewards| == |values| > 0 && chunkSize > 0
    ensures serial == chunked && AreAdvantages(rewards, values, gamma, lambd, serial.0)
  {
    var advA, retA := VanillaGae(rewards, values, gamma, lambd);
    var advB, retB := ChunkedGae(rewards, values, gamma, lambd, rowwise, chunkSize);
    assert advA == advB;
    assert retA == retB;
    serial, chunked := (advA, retA), (advB, retB);
  }

  // ---------------------------------------------------------------- zero padding of ragged rows

  lemma {:induction false} DiscountedSumOfPrefix(d: seq<real>, e: seq<real>, w: real, t: nat, n: nat)
    requires t + n <= |d| <= |e| && d == e[..|d|]
    ensures DiscountedSum(e, w, t, n) == DiscountedSum(d, w, t, n)
  {
    if n > 0 { DiscountedSumOfPrefix(d, e, w, t, n - 1); }
  }

  lemma {:induction false} DiscountedSumZeroTail(e: seq<real>, w: real, t: nat, m: nat, n: nat)
    requires m <= n && t + n <= |e|
    requires forall i :: t + m <= i < t + n ==> e[i] == 0.0
    ensures DiscountedSum(e, w, t, n) == DiscountedSum(e, w, t, m)
    decreases n
  {
    if m < n { DiscountedSumZeroTail(e, w, t, m, n - 1); }
  }

  /** Zero padding a row to any longer length leaves the advantages of its own tokens unchanged. */
  lemma PaddingKeepsAdvantages(rewards: seq<real>, values: seq<real>, pad: nat, gamma: real, lambd: real, t: nat)
    requires |rewards| == |values| && t < |rewards|
    ensures Advantage(rewards + Zeros(pad), values + Zeros(pad), gamma, lambd, t)
         == Advantage(rewards, values, gamma, lambd, t)
  {
    var n, w := |rewards|, gamma * lambd;
    var d := Deltas(rewards, values, gamma);
    var e := Deltas(rewards + Zeros(pad), values + Zeros(pad), gamma);
    forall t | 0 <= t < n ensures d[t] == e[t] {}
    assert d == e[..n];
    DiscountedSumZeroTail(e, w, t, n - t, n + pad - t);
    DiscountedSumOfPrefix(d, e, w, t, n - t);
  }

  lemma {:induction false} SumFromPadded(s: seq<real>, pad: nat, t: nat)
    requires t <= |s|
    ensures SumFrom(s + Zeros(pad), t) == SumFrom(s, t)
    decreases |s| - t
  {
    if t == |s| {
      SumFromZeros(s + Zeros(pad), t);
    } else {
      SumFromPadded(s, pad, t + 1);
    }
  }

  lemma {:induction false} SumFromZeros(s: seq<real>, t: nat)
    requires t <= |s| && forall i :: t <= i < |s| ==> s[i] == 0.0
    ensures SumFrom(s, t) == 0.0
    decreases |s| - t
  {
    if t < |s| { SumFromZeros(s, t + 1); }
  }

  // ---------------------------------------------------------------- length-adaptive mode

  /**
    The decoupled return target: with gamma == 1 the plain reward suffix sum is what lambda == 1
    advantages plus values telescope to, whatever the values are.
   */
  lemma {:induction false} SuffixSumIsLambdaOneReturn(rewards: seq<real>, values: seq<real>, t: nat)
    requires |rewards| == |values| && t < |rewards|
    ensures SumFrom(rewards, t) == Advantage(rewards, values, 1.0, 1.0, t) + values[t]
    decreases |rewards| - t
  {
    AdvantageStep(rewards, values, 1.0, 1.0, t);
    if t + 1 < |rewards| {
      SuffixSumIsLambdaOneReturn(rewards, values, t + 1);
    } else {
      assert SumFrom(rewards, t + 1) == 0.0;
    }
  }

  lemma {:induction false} OnlyLastTerm(d: seq<real>, w: real, n: nat)
    requires 0 < n <= |d| && forall i :: 0 <= i < n - 1 ==> d[i] == 0.0
    ensures DiscountedSum(d, w, 0, n) == Pow(w, n - 1) * d[n - 1]
  {
    DiscountedSumZeroTail(d, w, 0, 0, n - 1);
  }

  lemma {:induction false} PowPositive(x: real, n: nat)
    requires x > 0.0
    ensures Pow(x, n) > 0.0
    ensures x < 1.0 && n > 0 ==> Pow(x, n) < 1.0
    ensures x > 1.0 && n > 0 ==> Pow(x, n) > 1.0
    ensures x == 1.0 ==> Pow(x, n) == 1.0
  {
    if n > 0 {
      PowPositive(x, n - 1);
      var p := Pow(x, n - 1);
      assert x * p > 0.0;
      if x < 1.0 { assert x * p <= 1.0 * x; }
      if x > 1.0 { assert x * p >= 1.0 * x by { assert p >= 1.0; assert x * (p - 1.0) >= 0.0; } }
    }
  }

  lemma TerminalAdvantage(rewards: seq<real>, values: seq<real>, lambd: real, R: real)
    requires OneReward(rewards, values, R)
    ensures Advantage(rewards, values, 1.0, lambd, 0) == Pow(lambd, |rewards| - 1) * R
  {
    var d := Deltas(rewards, values, 1.0);
    forall t | 0 <= t < |rewards| ensures d[t] == rewards[t] {}
    OnlyLastTerm(d, lambd, |rewards|);
    assert 1.0 * lambd == lambd;
  }

  /** Zero values and one reward, at the end. */
  ghost predicate OneReward(rewards: seq<real>, values: seq<real>, R: real) {
    && |rewards| == |values| > 0
    && (forall t :: 0 <= t < |values| ==> values[t] == 0.0)
    && forall t :: 0 <= t < |rewards| ==> rewards[t] == if t == |rewards| - 1 then R else 0.0
  }

  /**
    The credit a terminal reward R gives the first token of a response of length L, with k for
    lambda^L: the code's advantage there is lambda^(L-1) * R, so lambda times it is k * R for
    every L.  The advantage itself is k * R, as the documentation words it, exactly when R is zero
    or k is one.
   */
  lemma {:induction false} TerminalCredit(rewards: seq<real>, values: seq<real>, lambd: real, R: real)
    requires lambd > 0.0 && OneReward(rewards, values, R)
    ensures var k := Pow(lambd, |rewards|);
      && lambd * Advantage(rewards, values, 1.0, lambd, 0) == k * R
      && (Advantage(rewards, values, 1.0, lambd, 0) == k * R <==> R == 0.0 || k == 1.0)
  {
    var n := |rewards|;
    TerminalAdvantage(rewards, values, lambd, R);
    PowPositive(lambd, n - 1);
    PowPositive(lambd, n);
    CreditArithmetic(lambd, Pow(lambd, n - 1), R);
  }

  /**
    The smallest case: two tokens, half a lambda.  The documentation's credit is a quarter of the reward, the code's a
    half.
   */
  lemma {:induction false} CreditExample()
    ensures Pow(0.5, 2) * 1.0 == 0.25
    ensures Advantage([0.0, 1.0], [0.0, 0.0], 1.0, 0.5, 0) == 0.5
  {
    TerminalAdvantage([0.0, 1.0], [0.0, 0.0], 0.5, 1.0);
    assert Pow(0.5, 2) == 0.5 * Pow(0.5, 1) && Pow(0.5, 1) == 0.5 * Pow(0.5, 0) == 0.5;
  }

  lemma CreditArithmetic(lambd: real, p: real, R: real)
    requires lambd > 0.0 && p > 0.0
    ensures lambd * (p * R) == lambd * p * R
    ensures p * R == lambd * p * R <==> R == 0.0 || lambd == 1.0
  {
    var q := p * R;
    assert lambd * (p * R) == (lambd * p) * R;
    assert lambd * q - q == q * (lambd - 1.0);
    if R != 0.0 && lambd != 1.0 {
      NonZeroProduct(p, R);
      NonZeroProduct(q, lambd - 1.0);
    }
  }

  lemma NonZeroProduct(x: real, y: real)
    requires x != 0.0 && y != 0.0
    ensures x * y != 0.0
  {
  }

  /** `length_adaptive_lambda` for one response, given the real L-th root of k; an empty response gets zero. */
  function LengthAdaptiveLambda(root: nat -> real, length: nat): real {
    if length > 0 then root(length) else 0.0
  }

  // ---------------------------------------------------------------- the batch wrapper

  datatype BatchResult = Rejected | Computed(advantages: seq<seq<real>>, returns_: seq<seq<real>>)

  function MaxLength(lengths: seq<nat>): (m: nat)
    ensures forall i :: 0 <= i < |lengths| ==> lengths[i] <= m
    ensures m == 0 || m in lengths
  {
    if lengths == [] then 0
    else
      var rest := MaxLength(lengths[1..]);
      if lengths[0] >= rest then lengths[0] else rest
  }

  /** Flip, running sum, flip: the suffix sums of a row. */
  method SuffixSums(row: seq<real>) returns (sums: seq<real>)
    ensures |sums| == |row| && forall t :: 0 <= t < |row| ==> sums[t] == SumFrom(row, t)
  {
    var total := 0.0;
    var cumulative: seq<real> := [];
    for t := |row| downto 0
      invariant |cumulative| == |row| - t && total == SumFrom(row, t)
      invariant forall i :: 0 <= i < |cumulative| ==> cumulative[i] == SumFrom(row, |row| - 1 - i)
    {
      total := total + row[t];
      cumulative := cumulative + [total];
    }
    sums := Reverse(cumulative);
  }

  /**
    One padded row of the batch under the mode chosen by the caller; `k` is zero when the length-adaptive mode is off.
   */
  method PaddedRow(values: seq<real>, rewards: seq<real>, pad: nat, gamma: real, lambd: real, chunked: bool, k: real)
    returns (adv: seq<real>, ret: seq<real>)
    requires |values| == |rewards|
    requires k != 0.0 ==> gamma == 1.0
    requires k == 0.0 && !chunked ==> |values| + pad > 0
    ensures AreAdvantages(rewards, values, gamma, lambd, adv)
    ensures |ret| == |values|
    ensures k == 0.0 ==> AreReturns(values, adv, ret)
    ensures k != 0.0 ==> forall t :: 0 <= t < |ret| ==> ret[t] == SumFrom(rewards, t)
  {
    var fullValues, fullRewards := values + Zeros(pad), rewards + Zeros(pad);
    var fullAdv: seq<real>;
    var fullRet: seq<real>;
    if k != 0.0 {
      fullAdv, fullRet := ChunkedGae(fullRewards, fullValues, gamma, lambd, true, 128);
      fullRet := SuffixSums(fullRewards);
    } else if !chunked {
      fullAdv, fullRet := VanillaGae(fullRewards, fullValues, gamma, lambd);
    } else {
      fullAdv, fullRet := ChunkedGae(fullRewards, fullValues, gamma, lambd, false, 128);
    }
    adv, ret := fullAdv[..|values|], fullRet[..|values|];
    forall t | 0 <= t < |values|
      ensures adv[t] == Advantage(rewards, values, gamma, lambd, t)
      ensures SumFrom(fullRewards, t) == SumFrom(rewards, t)
    {
      PaddingKeepsAdvantages(rewards, values, pad, gamma, lambd, t);
      SumFromPadded(rewards, pad, t);
    }
  }

  /** What lands in the first `length` places of a padded row: the row cut to them, or its only value in all of them. */
  function Fit(row: seq<real>, length: nat): (r: Option<seq<real>>)
    ensures r.Some? ==> |r.value| == length
    ensures |row| == length ==> r == Some(row)
  {
    assert row[..|row|] == row;
    if |row| >= length then Some(row[..length])
    else if |row| == 1 then Some(seq(length, _ => row[0]))
    else None
  }

  ghost predicate Fits(row: seq<real>, length: nat) {
    Fit(row, length).Some?
  }

  /** A row of the batch, if its values and rewards can be copied into the padded tensors. */
  method BatchRow(values: seq<real>, rewards: seq<real>, length: nat, maxLen: nat, gamma: real, lambd: real,
                  chunked: bool, k: real, root: nat -> real)
    returns (row: Option<(seq<real>, seq<real>)>)
    requires length <= maxLen && (k != 0.0 ==> gamma == 1.0) && (k == 0.0 && !chunked ==> maxLen > 0)
    ensures row.Some? <==> Fits(values, length) && Fits(rewards, length)
    ensures row.Some? ==>
      RowMeetsContract(Fit(values, length).value, Fit(rewards, length).value, gamma, lambd, k, root, row.value.0,
                       row.value.1)
  {
    var v, r := Fit(values, length), Fit(rewards, length);
    if v.None? || r.None? { return None; }
    var rowLambda := if k != 0.0 then LengthAdaptiveLambda(root, length) else lambd;
    var adv, ret := PaddedRow(v.value, r.value, maxLen - length, gamma, rowLambda, chunked, k);
    row := Some((adv, ret));
  }

  /**
    `get_advantages_and_returns_batch` without context parallelism.  `k == 0.0` stands for the
    option being unset; `root(L)` is the real k^(1/L).
   */
  method GetAdvantagesAndReturnsBatch(responseLengths: seq<nat>, valuesList: seq<seq<real>>,
                                      rewardsList: seq<seq<real>>, gamma: real, lambd: real, chunked: bool, k: real,
                                      root: nat -> real)
    returns (out: BatchResult)
    ensures out.Rejected? <==>
      || |responseLengths| == 0
      || |responseLengths| != |valuesList|
      || |responseLengths| != |rewardsList|
      || (k != 0.0 && (gamma != 1.0 || !(0.0 < k <= 1.0)))
      || (k == 0.0 && !chunked && forall i :: 0 <= i < |responseLengths| ==> responseLengths[i] == 0)
      || exists i :: 0 <= i < |responseLengths|
          && !(Fits(valuesList[i], responseLengths[i]) && Fits(rewardsList[i], responseLengths[i]))
    ensures out.Computed? && k != 0.0 && RootsOf(root, k) ==>
      |out.advantages| == |responseLengths| && forall i :: 0 <= i < |responseLengths| && responseLengths[i] > 0 ==>
        Credited(Fit(valuesList[i], responseLengths[i]).value, Fit(rewardsList[i], responseLengths[i]).value, k,
                 out.advantages[i])
    ensures out.Computed? ==>
      && |out.advantages| == |out.returns_| == |responseLengths|
      && forall i :: 0 <= i < |responseLengths| ==>
        RowMeetsContract(Fit(valuesList[i], responseLengths[i]).value, Fit(rewardsList[i], responseLengths[i]).value,
                         gamma, lambd, k, root, out.advantages[i], out.returns_[i])
  {
    if |responseLengths| == 0 || |responseLengths| != |valuesList| || |responseLengths| != |rewardsList| {
      return Rejected;
    }
    if k != 0.0 && (gamma != 1.0 || !(0.0 < k <= 1.0)) {
      return Rejected;
    }
    var maxLen := MaxLength(responseLengths);
    if k == 0.0 && !chunked && maxLen == 0 {
      return Rejected;
    }
    var advantages: seq<seq<real>> := [];
    var returns_: seq<seq<real>> := [];
    for i := 0 to |responseLengths|
      invariant |advantages| == |returns_| == i
      invariant forall j :: 0 <= j < i ==>
          Fits(valuesList[j], responseLengths[j]) && Fits(rewardsList[j], responseLengths[j])
      invariant forall j :: 0 <= j < i ==>
        RowMeetsContract(Fit(valuesList[j], responseLengths[j]).value, Fit(rewardsList[j], responseLengths[j]).value,
                         gamma, lambd, k, root, advantages[j], returns_[j])
    {
      var row := BatchRow(valuesList[i], rewardsList[i], responseLengths[i], maxLen, gamma, lambd, chunked, k, root);
      if row.None? { return Rejected; }
      advantages, returns_ := advantages + [row.value.0], returns_ + [row.value.1];
    }
    if k != 0.0 && RootsOf(root, k) {
      forall i | 0 <= i < |responseLengths| && responseLengths[i] > 0
        ensures Credited(Fit(valuesList[i], responseLengths[i]).value, Fit(rewardsList[i], responseLengths[i]).value, k,
                         advantages[i])
      {
        RowIsCredited(Fit(valuesList[i], responseLengths[i]).value, Fit(rewardsList[i], responseLengths[i]).value,
                      lambd, k, root, advantages[i], returns_[i]);
      }
    }
    out := Computed(advantages, returns_);
  }

  /** The positive roots of k. */
  ghost predicate RootsOf(root: nat -> real, k: real) {
    forall L: nat :: L > 0 ==> root(L) > 0.0 && Pow(root(L), L) == k
  }

  /**
    What the length-adaptive mode promises a row: the advantages of the lambda whose power by the length of the response
    is k, so that lambda times the first advantage is k times a single terminal reward when all values are zero.
   */
  ghost predicate Credited(values: seq<real>, rewards: seq<real>, k: real, adv: seq<real>) {
    exists lambda | lambda > 0.0 && Pow(lambda, |values|) == k ::
      && AreAdvantages(rewards, values, 1.0, lambda, adv)
      && forall R :: OneReward(rewards, values, R) ==> lambda * adv[0] == k * R
  }

  lemma {:induction false} RowIsCredited(values: seq<real>, rewards: seq<real>, lambd: real, k: real,
                                         root: nat -> real, adv: seq<real>, ret: seq<real>)
    requires RowMeetsContract(values, rewards, 1.0, lambd, k, root, adv, ret) && RootsOf(root, k)
    requires k != 0.0 && values != []
    ensures Credited(values, rewards, k, adv)
  {
    var lambda := root(|values|);
    assert lambda > 0.0 && Pow(lambda, |values|) == k;
    forall R | OneReward(rewards, values, R) ensures lambda * adv[0] == k * R {
      TerminalCredit(rewards, values, lambda, R);
    }
  }

  /**
    What the batch wrapper promises about a row: the advantages of the unpadded sample under its own
    lambda, and either advantages plus values or, in length-adaptive mode, the reward suffix sums.
   */
  ghost predicate RowMeetsContract(values: seq<real>, rewards: seq<real>, gamma: real, lambd: real, k: real,
                                   root: nat -> real, adv: seq<real>, ret: seq<real>) {
    && (k == 0.0 ==> AreAdvantages(rewards, values, gamma, lambd, adv) && AreReturns(values, adv, ret))
    && (k != 0.0 ==>
          && AreAdvantages(rewards, values, gamma, if |values| > 0 then root(|values|) else 0.0, adv)
          && |ret| == |values|
          && forall t :: 0 <= t < |ret| ==> ret[t] == SumFrom(rewards, t))
  }
}
