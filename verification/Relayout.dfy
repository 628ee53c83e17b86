/**
  Context-parallel relayout (`miles_plugins/models/hf_attention.py`).

  A collective all-gather is modelled by handing every rank the list of all ranks' shards.
  A sequence whose length is a multiple of `2 * cpSize` is laid out zigzag: rank r holds chunks r and
  `2 * cpSize - 1 - r`; any other sequence is cut into `cpSize` contiguous pieces.
 */
module Relayout {
  import opened Arith
  import opened Options

  // ---------------------------------------------------------------- concatenation and cutting

  function Cat<T>(chunks: seq<seq<T>>): seq<T> {
    if chunks == [] then [] else chunks[0] + Cat(chunks[1..])
  }

  /** n pieces of c tokens each. */
  function Cut<T>(s: seq<T>, c: nat, n: nat): (chunks: seq<seq<T>>)
    requires |s| == n * c
    ensures |chunks| == n && forall i :: 0 <= i < n ==> |chunks[i]| == c
    decreases n
  {
    if n == 0 then [] else
      MulSucc(n - 1, c);
      MulMonotone(0, n - 1, c);
      [s[..c]] + Cut(s[c..], c, n - 1)
  }

  ghost predicate AllOfSize<T>(chunks: seq<seq<T>>, c: nat) {
    forall i :: 0 <= i < |chunks| ==> |chunks[i]| == c
  }

  lemma {:induction false} CatSize<T>(chunks: seq<seq<T>>, c: nat)
    requires AllOfSize(chunks, c)
    ensures |Cat(chunks)| == |chunks| * c
  {
    if chunks != [] {
      CatSize(chunks[1..], c);
      MulSucc(|chunks| - 1, c);
    }
  }

  lemma {:induction false} CutCat<T>(chunks: seq<seq<T>>, c: nat)
    requires AllOfSize(chunks, c)
    ensures |Cat(chunks)| == |chunks| * c && Cut(Cat(chunks), c, |chunks|) == chunks
  {
    CatSize(chunks, c);
    if chunks != [] {
      CutCat(chunks[1..], c);
      assert Cat(chunks)[..c] == chunks[0];
      assert Cat(chunks)[c..] == Cat(chunks[1..]);
    }
  }

  lemma {:induction false} CatCut<T>(s: seq<T>, c: nat, n: nat)
    requires |s| == n * c
    ensures Cat(Cut(s, c, n)) == s
  {
    if n > 0 {
      MulSucc(n - 1, c);
      MulMonotone(0, n - 1, c);
      CatCut(s[c..], c, n - 1);
      assert Cut(s, c, n)[1..] == Cut(s[c..], c, n - 1);
    }
  }

  lemma {:induction false} CutAt<T>(s: seq<T>, c: nat, n: nat, i: nat)
    requires |s| == n * c && i < n
    ensures i * c + c <= |s| && Cut(s, c, n)[i] == s[i * c..i * c + c]
  {
    MulMonotone(i + 1, n, c);
    MulSucc(i, c);
    if i > 0 {
      MulSucc(n - 1, c);
      MulSucc(i - 1, c);
      MulMonotone(0, i - 1, c);
      CutAt(s[c..], c, n - 1, i - 1);
    }
  }

  lemma {:induction false} CatSnoc<T>(chunks: seq<seq<T>>, last: seq<T>)
    ensures Cat(chunks + [last]) == Cat(chunks) + last
  {
    if chunks == [] {
      assert ([] + [last])[1..] == [];
    } else {
      CatSnoc(chunks[1..], last);
      assert (chunks + [last])[1..] == chunks[1..] + [last];
    }
  }

  // ---------------------------------------------------------------- one sequence

  /*
    A sequence is described by its length `m` on each rank; its global length is `cpSize * m`.  It is
    laid out zigzag exactly when m is even (lemma ZigzagTest relates this to the test in the code).
   */

  /** The 2 * cpSize chunks in stream order, read off the ranks' pieces. */
  function ChunksOf<T>(perRank: seq<seq<T>>, c: nat): (chunks: seq<seq<T>>)
    requires forall r :: 0 <= r < |perRank| ==> c <= |perRank[r]|
    ensures |chunks| == 2 * |perRank|
    ensures AllOfSize(perRank, 2 * c) ==> AllOfSize(chunks, c)
  {
    var n := |perRank|;
    seq(2 * n, i requires 0 <= i < 2 * n => if i < n then perRank[i][..c] else perRank[2 * n - 1 - i][c..])
  }

  /** A sequence rebuilt from the pieces the ranks hold. */
  function ToFull<T>(perRank: seq<seq<T>>, m: nat): seq<T>
    requires AllOfSize(perRank, m)
  {
    if m % 2 == 0 then Cat(ChunksOf(perRank, m / 2)) else Cat(perRank)
  }

  lemma HalfChunks(n: nat, m: nat)
    requires m % 2 == 0
    ensures n * m == (2 * n) * (m / 2)
  {
    var c := m / 2;
    assert m == 2 * c;
    assert n * (2 * c) == (2 * n) * c;
  }

  /** The chunks of a full sequence, in stream order. */
  function Parts<T>(full: seq<T>, cpSize: nat, m: nat): (parts: seq<seq<T>>)
    requires |full| == cpSize * m && m % 2 == 0
    ensures |parts| == 2 * cpSize && AllOfSize(parts, m / 2)
  {
    HalfChunks(cpSize, m);
    Cut(full, m / 2, 2 * cpSize)
  }

  /** The piece of a sequence that rank r holds. */
  function ToLocal<T>(full: seq<T>, cpSize: nat, m: nat, r: nat): (piece: seq<T>)
    requires r < cpSize && |full| == cpSize * m
    ensures |piece| == m
  {
    if m % 2 == 0 then Parts(full, cpSize, m)[r] + Parts(full, cpSize, m)[2 * cpSize - 1 - r]
    else Cut(full, m, cpSize)[r]
  }

  lemma FullSize<T>(perRank: seq<seq<T>>, m: nat)
    requires AllOfSize(perRank, m)
    ensures |ToFull(perRank, m)| == |perRank| * m
  {
    if m % 2 == 0 {
      HalfChunks(|perRank|, m);
      CatSize(ChunksOf(perRank, m / 2), m / 2);
    } else {
      CatSize(perRank, m);
    }
  }

  lemma ChunkPair<T>(perRank: seq<seq<T>>, c: nat, r: nat)
    requires AllOfSize(perRank, 2 * c) && r < |perRank|
    ensures ChunksOf(perRank, c)[r] + ChunksOf(perRank, c)[2 * |perRank| - 1 - r] == perRank[r]
  {
    assert perRank[r][..c] + perRank[r][c..] == perRank[r];
  }

  /** Cutting a rebuilt sequence gives every rank its piece back. */
  lemma {:induction false} LocalOfFull<T>(perRank: seq<seq<T>>, m: nat, r: nat)
    requires r < |perRank| && AllOfSize(perRank, m)
    ensures |ToFull(perRank, m)| == |perRank| * m
    ensures ToLocal(ToFull(perRank, m), |perRank|, m, r) == perRank[r]
  {
    FullSize(perRank, m);
    if m % 2 == 0 {
      CutCat(ChunksOf(perRank, m / 2), m / 2);
      ChunkPair(perRank, m / 2, r);
    } else {
      CutCat(perRank, m);
    }
  }

  function Locals<T>(full: seq<T>, cpSize: nat, m: nat): (perRank: seq<seq<T>>)
    requires |full| == cpSize * m
    ensures |perRank| == cpSize && AllOfSize(perRank, m)
  {
    seq(cpSize, r requires 0 <= r < cpSize => ToLocal(full, cpSize, m, r))
  }

  /** Rebuilding from the cut pieces gives the sequence back. */
  lemma FullOfLocals<T>(full: seq<T>, cpSize: nat, m: nat)
    requires |full| == cpSize * m
    ensures ToFull(Locals(full, cpSize, m), m) == full
  {
    var perRank := Locals(full, cpSize, m);
    if m % 2 == 0 {
      assert ChunksOf(perRank, m / 2) == Parts(full, cpSize, m);
      HalfChunks(cpSize, m);
      CatCut(full, m / 2, 2 * cpSize);
    } else {
      assert perRank == Cut(full, m, cpSize);
      CatCut(full, m, cpSize);
    }
  }

  // ---------------------------------------------------------------- whole packed streams

  function LocalTotal(lens: seq<nat>): nat {
    if lens == [] then 0 else lens[0] + LocalTotal(lens[1..])
  }

  function GlobalTotal(lens: seq<nat>, cpSize: nat): nat {
    if lens == [] then 0 else cpSize * lens[0] + GlobalTotal(lens[1..], cpSize)
  }

  lemma {:induction false} TotalsAgree(lens: seq<nat>, cpSize: nat)
    ensures GlobalTotal(lens, cpSize) == cpSize * LocalTotal(lens)
  {
    if lens != [] {
      TotalsAgree(lens[1..], cpSize);
      assert cpSize * (lens[0] + LocalTotal(lens[1..])) == cpSize * lens[0] + cpSize * LocalTotal(lens[1..]);
    }
  }

  /** One shard per rank, each with its share of every sequence. */
  ghost predicate IsSharded<T>(shards: seq<seq<T>>, lens: seq<nat>) {
    AllOfSize(shards, LocalTotal(lens))
  }

  function Heads<T>(shards: seq<seq<T>>, n: nat): (heads: seq<seq<T>>)
    requires forall r :: 0 <= r < |shards| ==> n <= |shards[r]|
    ensures |heads| == |shards| && AllOfSize(heads, n)
  {
    seq(|shards|, r requires 0 <= r < |shards| => shards[r][..n])
  }

  function Tails<T>(shards: seq<seq<T>>, n: nat): (tails: seq<seq<T>>)
    requires forall r :: 0 <= r < |shards| ==> n <= |shards[r]|
    ensures |tails| == |shards| && forall r :: 0 <= r < |shards| ==> |tails[r]| == |shards[r]| - n
  {
    seq(|shards|, r requires 0 <= r < |shards| => shards[r][n..])
  }

  /** The full token stream, sequence by sequence. */
  function FullStream<T>(shards: seq<seq<T>>, lens: seq<nat>): (full: seq<T>)
    requires IsSharded(shards, lens)
    ensures |full| == GlobalTotal(lens, |shards|)
    decreases |lens|
  {
    if lens == [] then []
    else
      FullSize(Heads(shards, lens[0]), lens[0]);
      ToFull(Heads(shards, lens[0]), lens[0]) + FullStream(Tails(shards, lens[0]), lens[1..])
  }

  /** The zigzag shard of rank r, sequence by sequence. */
  function LocalStream<T>(full: seq<T>, lens: seq<nat>, cpSize: nat, r: nat): (shard: seq<T>)
    requires r < cpSize && |full| == GlobalTotal(lens, cpSize)
    ensures |shard| == LocalTotal(lens)
    decreases |lens|
  {
    if lens == [] then []
    else
      MulMonotone(0, cpSize, lens[0]);
      var g: nat := cpSize * lens[0];
      ToLocal(full[..g], cpSize, lens[0], r) + LocalStream(full[g..], lens[1..], cpSize, r)
  }

  lemma {:induction false} LocalStreamStep<T>(head: seq<T>, tail: seq<T>, lens: seq<nat>, cpSize: nat, r: nat)
    requires lens != [] && r < cpSize && |head| == cpSize * lens[0] && |tail| == GlobalTotal(lens[1..], cpSize)
    ensures LocalStream(head + tail, lens, cpSize, r)
        == ToLocal(head, cpSize, lens[0], r) + LocalStream(tail, lens[1..], cpSize, r)
  {
    assert (head + tail)[..|head|] == head && (head + tail)[|head|..] == tail;
  }

  lemma {:induction false} LocalOfFullStream<T>(shards: seq<seq<T>>, lens: seq<nat>, r: nat)
    requires IsSharded(shards, lens) && r < |shards|
    ensures LocalStream(FullStream(shards, lens), lens, |shards|, r) == shards[r]
    decreases |lens|
  {
    if lens == [] {
      assert shards[r] == [];
    } else {
      var m := lens[0];
      var heads, tails := Heads(shards, m), Tails(shards, m);
      LocalOfFull(heads, m, r);
      LocalOfFullStream(tails, lens[1..], r);
      LocalStreamStep(ToFull(heads, m), FullStream(tails, lens[1..]), lens, |shards|, r);
      assert LocalStream(FullStream(shards, lens), lens, |shards|, r) == heads[r] + tails[r];
    }
  }

  function LocalStreams<T>(full: seq<T>, lens: seq<nat>, cpSize: nat): (shards: seq<seq<T>>)
    requires |full| == GlobalTotal(lens, cpSize)
    ensures |shards| == cpSize && IsSharded(shards, lens)
  {
    seq(cpSize, r requires 0 <= r < cpSize => LocalStream(full, lens, cpSize, r))
  }

  lemma LocalStreamsSplit<T>(head: seq<T>, tail: seq<T>, lens: seq<nat>, cpSize: nat)
    requires lens != [] && |head| == cpSize * lens[0] && |tail| == GlobalTotal(lens[1..], cpSize)
    ensures Heads(LocalStreams(head + tail, lens, cpSize), lens[0]) == Locals(head, cpSize, lens[0])
    ensures Tails(LocalStreams(head + tail, lens, cpSize), lens[0]) == LocalStreams(tail, lens[1..], cpSize)
  {
    forall r | 0 <= r < cpSize
      ensures LocalStream(head + tail, lens, cpSize, r)
           == ToLocal(head, cpSize, lens[0], r) + LocalStream(tail, lens[1..], cpSize, r)
    {
      LocalStreamStep(head, tail, lens, cpSize, r);
    }
  }

  lemma {:induction false} FullOfLocalStreams<T>(full: seq<T>, lens: seq<nat>, cpSize: nat)
    requires |full| == GlobalTotal(lens, cpSize)
    ensures FullStream(LocalStreams(full, lens, cpSize), lens) == full
    decreases |lens|
  {
    if lens != [] {
      MulMonotone(0, cpSize, lens[0]);
      var g: nat := cpSize * lens[0];
      var head, tail := full[..g], full[g..];
      assert head + tail == full;
      LocalStreamsSplit(head, tail, lens, cpSize);
      FullOfLocals(head, cpSize, lens[0]);
      FullOfLocalStreams(tail, lens[1..], cpSize);
    }
  }

  // ---------------------------------------------------------------- the two layout maps

  /** All ranks' contiguous shards of the stream: what `_zigzag_to_packed_shard` returns on each rank. */
  function ZigzagToPacked<T>(shards: seq<seq<T>>, lens: seq<nat>): (packed: seq<seq<T>>)
    requires IsSharded(shards, lens)
    ensures |packed| == |shards| && IsSharded(packed, lens)
  {
    TotalsAgree(lens, |shards|);
    Cut(FullStream(shards, lens), LocalTotal(lens), |shards|)
  }

  /** All ranks' zigzag shards: what `_packed_shard_to_zigzag` returns on each rank. */
  function PackedToZigzag<T>(packed: seq<seq<T>>, lens: seq<nat>): (shards: seq<seq<T>>)
    requires IsSharded(packed, lens)
    ensures |shards| == |packed| && IsSharded(shards, lens)
  {
    CatSize(packed, LocalTotal(lens));
    TotalsAgree(lens, |packed|);
    LocalStreams(Cat(packed), lens, |packed|)
  }

  /** Going to packed shards and back is the identity on every rank. */
  lemma {:induction false} ZigzagRoundTrip<T>(shards: seq<seq<T>>, lens: seq<nat>)
    requires IsSharded(shards, lens)
    ensures PackedToZigzag(ZigzagToPacked(shards, lens), lens) == shards
  {
    TotalsAgree(lens, |shards|);
    CatCut(FullStream(shards, lens), LocalTotal(lens), |shards|);
    var back := PackedToZigzag(ZigzagToPacked(shards, lens), lens);
    forall r | 0 <= r < |shards| ensures back[r] == shards[r] {
      LocalOfFullStream(shards, lens, r);
    }
  }

  /** Going to zigzag shards and back is the identity on every rank. */
  lemma {:induction false} PackedRoundTrip<T>(packed: seq<seq<T>>, lens: seq<nat>)
    requires IsSharded(packed, lens)
    ensures ZigzagToPacked(PackedToZigzag(packed, lens), lens) == packed
  {
    CatSize(packed, LocalTotal(lens));
    TotalsAgree(lens, |packed|);
    FullOfLocalStreams(Cat(packed), lens, |packed|);
    CutCat(packed, LocalTotal(lens));
  }

  // ---------------------------------------------------------------- the maps only move tokens

  function Map<T, U>(f: T -> U, s: seq<T>): seq<U> {
    seq(|s|, i requires 0 <= i < |s| => f(s[i]))
  }

  function MapAll<T, U>(f: T -> U, shards: seq<seq<T>>): seq<seq<U>> {
    seq(|shards|, r requires 0 <= r < |shards| => Map(f, shards[r]))
  }

  function Weighed<T>(g: T -> real, s: seq<T>): real {
    if s == [] then 0.0 else g(s[0]) + Weighed(g, s[1..])
  }

  function WeighedAll<T>(g: T -> real, shards: seq<seq<T>>): real {
    if shards == [] then 0.0 else Weighed(g, shards[0]) + WeighedAll(g, shards[1..])
  }

  lemma {:induction false} WeighedConcat<T>(g: T -> real, a: seq<T>, b: seq<T>)
    ensures Weighed(g, a + b) == Weighed(g, a) + Weighed(g, b)
  {
    if a == [] {
      assert a + b == b;
    } else {
      WeighedConcat(g, a[1..], b);
      assert (a + b)[1..] == a[1..] + b;
    }
  }

  lemma {:induction false} TotalCat<T>(g: T -> real, chunks: seq<seq<T>>)
    ensures Weighed(g, Cat(chunks)) == WeighedAll(g, chunks)
  {
    if chunks != [] {
      WeighedConcat(g, chunks[0], Cat(chunks[1..]));
      TotalCat(g, chunks[1..]);
    }
  }

  lemma {:induction false} TotalAllConcat<T>(g: T -> real, a: seq<seq<T>>, b: seq<seq<T>>)
    ensures WeighedAll(g, a + b) == WeighedAll(g, a) + WeighedAll(g, b)
  {
    if a == [] {
      assert a + b == b;
    } else {
      TotalAllConcat(g, a[1..], b);
      assert (a + b)[1..] == a[1..] + b;
    }
  }

  lemma TotalSplit<T>(g: T -> real, s: seq<T>, n: nat)
    requires n <= |s|
    ensures Weighed(g, s) == Weighed(g, s[..n]) + Weighed(g, s[n..])
  {
    WeighedConcat(g, s[..n], s[n..]);
    assert s[..n] + s[n..] == s;
  }

  lemma {:induction false} TotalHeadsTails<T>(g: T -> real, shards: seq<seq<T>>, n: nat)
    requires forall r :: 0 <= r < |shards| ==> n <= |shards[r]|
    ensures WeighedAll(g, shards) == WeighedAll(g, Heads(shards, n)) + WeighedAll(g, Tails(shards, n))
  {
    if shards != [] {
      TotalSplit(g, shards[0], n);
      TotalHeadsTails(g, shards[1..], n);
      assert Heads(shards, n)[1..] == Heads(shards[1..], n);
      assert Tails(shards, n)[1..] == Tails(shards[1..], n);
    }
  }

  /** The chunks in stream order are the first halves in rank order and the second halves in reverse. */
  lemma {:induction false} TotalChunks<T>(g: T -> real, perRank: seq<seq<T>>, c: nat)
    requires AllOfSize(perRank, 2 * c)
    ensures WeighedAll(g, ChunksOf(perRank, c)) == WeighedAll(g, perRank)
  {
    if perRank != [] {
      var n := |perRank|;
      var inner := ChunksOf(perRank[1..], c);
      var first, last := perRank[0][..c], perRank[0][c..];
      assert ChunksOf(perRank, c) == [first] + inner + [last];
      TotalChunks(g, perRank[1..], c);
      TotalAllConcat(g, [first] + inner, [last]);
      assert ([first] + inner)[1..] == inner;
      TotalSplit(g, perRank[0], c);
      TotalSingle(g, last);
    }
  }

  lemma TotalSingle<T>(g: T -> real, s: seq<T>)
    ensures WeighedAll(g, [s]) == Weighed(g, s)
  {
    assert [s][1..] == [];
  }

  lemma TotalToFull<T>(g: T -> real, perRank: seq<seq<T>>, m: nat)
    requires AllOfSize(perRank, m)
    ensures Weighed(g, ToFull(perRank, m)) == WeighedAll(g, perRank)
  {
    if m % 2 == 0 {
      TotalCat(g, ChunksOf(perRank, m / 2));
      TotalChunks(g, perRank, m / 2);
    } else {
      TotalCat(g, perRank);
    }
  }

  lemma {:induction false} TotalFullStream<T>(g: T -> real, shards: seq<seq<T>>, lens: seq<nat>)
    requires IsSharded(shards, lens)
    ensures Weighed(g, FullStream(shards, lens)) == WeighedAll(g, shards)
    decreases |lens|
  {
    if lens == [] {
      TotalOfEmpty(g, shards);
    } else {
      var m := lens[0];
      TotalToFull(g, Heads(shards, m), m);
      TotalFullStream(g, Tails(shards, m), lens[1..]);
      WeighedConcat(g, ToFull(Heads(shards, m), m), FullStream(Tails(shards, m), lens[1..]));
      TotalHeadsTails(g, shards, m);
    }
  }

  lemma {:induction false} TotalOfEmpty<T>(g: T -> real, shards: seq<seq<T>>)
    requires AllOfSize(shards, 0)
    ensures WeighedAll(g, shards) == 0.0
  {
    if shards != [] { TotalOfEmpty(g, shards[1..]); }
  }

  /**
    The tokens on all ranks together are only permuted: every weighting of tokens has the same total
    before and after, in particular the weighting that counts one value.
   */
  lemma RelayoutPermutes<T>(g: T -> real, shards: seq<seq<T>>, lens: seq<nat>)
    requires IsSharded(shards, lens)
    ensures WeighedAll(g, ZigzagToPacked(shards, lens)) == WeighedAll(g, shards)
  {
    TotalsAgree(lens, |shards|);
    TotalFullStream(g, shards, lens);
    TotalCat(g, ZigzagToPacked(shards, lens));
    CatCut(FullStream(shards, lens), LocalTotal(lens), |shards|);
  }

  // ---------------------------------------------------------------- the maps do not look at the tokens

  lemma MapSlice<T, U>(f: T -> U, s: seq<T>, a: nat, b: nat)
    requires a <= b <= |s|
    ensures Map(f, s[a..b]) == Map(f, s)[a..b]
  {
  }

  lemma {:induction false} MapCat<T, U>(f: T -> U, chunks: seq<seq<T>>)
    ensures Map(f, Cat(chunks)) == Cat(MapAll(f, chunks))
  {
    if chunks != [] {
      MapCat(f, chunks[1..]);
      assert MapAll(f, chunks)[1..] == MapAll(f, chunks[1..]);
      assert Map(f, chunks[0] + Cat(chunks[1..])) == Map(f, chunks[0]) + Map(f, Cat(chunks[1..]));
    }
  }

  lemma MapChunks<T, U>(f: T -> U, perRank: seq<seq<T>>, c: nat)
    requires AllOfSize(perRank, 2 * c)
    ensures MapAll(f, ChunksOf(perRank, c)) == ChunksOf(MapAll(f, perRank), c)
  {
    var a, b := MapAll(f, ChunksOf(perRank, c)), ChunksOf(MapAll(f, perRank), c);
    forall i | 0 <= i < 2 * |perRank| ensures a[i] == b[i] {
      if i < |perRank| {
        MapSlice(f, perRank[i], 0, c);
      } else {
        MapSlice(f, perRank[2 * |perRank| - 1 - i], c, 2 * c);
      }
    }
  }

  lemma MapToFull<T, U>(f: T -> U, perRank: seq<seq<T>>, m: nat)
    requires AllOfSize(perRank, m)
    ensures Map(f, ToFull(perRank, m)) == ToFull(MapAll(f, perRank), m)
  {
    if m % 2 == 0 {
      MapCat(f, ChunksOf(perRank, m / 2));
      MapChunks(f, perRank, m / 2);
    } else {
      MapCat(f, perRank);
    }
  }

  lemma MapConcat<T, U>(f: T -> U, a: seq<T>, b: seq<T>)
    ensures Map(f, a + b) == Map(f, a) + Map(f, b)
  {
  }

  lemma MapHeadsTails<T, U>(f: T -> U, shards: seq<seq<T>>, n: nat)
    requires forall r :: 0 <= r < |shards| ==> n <= |shards[r]|
    ensures MapAll(f, Heads(shards, n)) == Heads(MapAll(f, shards), n)
    ensures MapAll(f, Tails(shards, n)) == Tails(MapAll(f, shards), n)
  {
    forall r | 0 <= r < |shards|
      ensures Map(f, shards[r][..n]) == Map(f, shards[r])[..n]
      ensures Map(f, shards[r][n..]) == Map(f, shards[r])[n..]
    {}
  }

  lemma {:induction false} MapFullStream<T, U>(f: T -> U, shards: seq<seq<T>>, lens: seq<nat>)
    requires IsSharded(shards, lens)
    ensures Map(f, FullStream(shards, lens)) == FullStream(MapAll(f, shards), lens)
    decreases |lens|
  {
    if lens != [] {
      var m := lens[0];
      MapToFull(f, Heads(shards, m), m);
      MapFullStream(f, Tails(shards, m), lens[1..]);
      MapHeadsTails(f, shards, m);
      MapConcat(f, ToFull(Heads(shards, m), m), FullStream(Tails(shards, m), lens[1..]));
    }
  }

  lemma {:induction false} MapCut<T, U>(f: T -> U, s: seq<T>, c: nat, n: nat)
    requires |s| == n * c
    ensures MapAll(f, Cut(s, c, n)) == Cut(Map(f, s), c, n)
    decreases n
  {
    if n > 0 {
      MulSucc(n - 1, c);
      MulMonotone(0, n - 1, c);
      MapCut(f, s[c..], c, n - 1);
      MapSlice(f, s, 0, c);
      MapSlice(f, s, c, |s|);
      assert s[c..|s|] == s[c..] && Map(f, s)[c..|s|] == Map(f, s)[c..];
      assert MapAll(f, Cut(s, c, n)) == [Map(f, s[..c])] + MapAll(f, Cut(s[c..], c, n - 1));
    }
  }

  /** Relabelling tokens commutes with the relayout. */
  lemma {:induction false} RelayoutNatural<T, U>(f: T -> U, shards: seq<seq<T>>, lens: seq<nat>)
    requires IsSharded(shards, lens)
    ensures MapAll(f, ZigzagToPacked(shards, lens)) == ZigzagToPacked(MapAll(f, shards), lens)
  {
    TotalsAgree(lens, |shards|);
    MapFullStream(f, shards, lens);
    MapCut(f, FullStream(shards, lens), LocalTotal(lens), |shards|);
  }

  // ---------------------------------------------------------------- one map is the other's backward

  function Product(p: (real, real)): real { p.0 * p.1 }

  function First(p: (real, real)): real { p.0 }

  function Second(p: (real, real)): real { p.1 }

  function Pair(a: seq<real>, b: seq<real>): seq<(real, real)>
    requires |a| == |b|
  {
    seq(|a|, i requires 0 <= i < |a| => (a[i], b[i]))
  }

  /** Tokens of two sharded tensors side by side. */
  function PairAll(a: seq<seq<real>>, b: seq<seq<real>>): seq<seq<(real, real)>>
    requires |a| == |b| && forall r :: 0 <= r < |a| ==> |a[r]| == |b[r]|
  {
    seq(|a|, r requires 0 <= r < |a| => Pair(a[r], b[r]))
  }

  /** Inner product over all ranks. */
  function InnerProduct(a: seq<seq<real>>, b: seq<seq<real>>): real
    requires |a| == |b| && forall r :: 0 <= r < |a| ==> |a[r]| == |b[r]|
  {
    WeighedAll(Product, PairAll(a, b))
  }

  lemma PairOfProjections(z: seq<seq<(real, real)>>)
    ensures PairAll(MapAll(First, z), MapAll(Second, z)) == z
  {
    var w := PairAll(MapAll(First, z), MapAll(Second, z));
    forall r | 0 <= r < |z| ensures w[r] == z[r] {
      assert |w[r]| == |z[r]|;
    }
  }

  lemma ProjectionsOfPair(a: seq<seq<real>>, b: seq<seq<real>>)
    requires |a| == |b| && forall r :: 0 <= r < |a| ==> |a[r]| == |b[r]|
    ensures MapAll(First, PairAll(a, b)) == a && MapAll(Second, PairAll(a, b)) == b
  {
    var z := PairAll(a, b);
    forall r | 0 <= r < |a| ensures MapAll(First, z)[r] == a[r] && MapAll(Second, z)[r] == b[r] {
      assert z[r] == Pair(a[r], b[r]);
      assert Map(First, z[r]) == a[r] && Map(Second, z[r]) == b[r];
    }
  }

  /**
    The backward of each map is the other one: moving the gradient with `PackedToZigzag` gives the
    same inner product as moving the activations with `ZigzagToPacked`.
   */
  lemma {:induction false} RelayoutIsAdjoint(x: seq<seq<real>>, y: seq<seq<real>>, lens: seq<nat>)
    requires IsSharded(x, lens) && IsSharded(y, lens) && |x| == |y|
    ensures InnerProduct(ZigzagToPacked(x, lens), y) == InnerProduct(x, PackedToZigzag(y, lens))
  {
    var back := PackedToZigzag(y, lens);
    var z := PairAll(x, back);
    ProjectionsOfPair(x, back);
    RelayoutNatural(First, z, lens);
    RelayoutNatural(Second, z, lens);
    PackedRoundTrip(y, lens);
    var moved := ZigzagToPacked(z, lens);
    assert MapAll(First, moved) == ZigzagToPacked(x, lens);
    assert MapAll(Second, moved) == y;
    PairOfProjections(moved);
    RelayoutPermutes(Product, z, lens);
  }

  // ---------------------------------------------------------------- the per-rank functions

  /** Cumulative offsets of nonempty sequences. */
  ghost predicate IsCumulative(cu: seq<nat>) {
    |cu| > 0 && cu[0] == 0 && forall i :: 0 <= i < |cu| - 1 ==> cu[i] < cu[i + 1]
  }

  ghost predicate AllDivisible(cu: seq<nat>, cpSize: nat)
    requires IsCumulative(cu) && cpSize > 0
  {
    forall i :: 0 <= i < |cu| - 1 ==> (cu[i + 1] - cu[i]) % cpSize == 0
  }

  function LocalLens(cu: seq<nat>, cpSize: nat): (lens: seq<nat>)
    requires IsCumulative(cu) && cpSize > 0
  {
    seq(|cu| - 1, i requires 0 <= i < |cu| - 1 => (cu[i + 1] - cu[i]) / cpSize)
  }

  /** The parity of the local length is the test of the code, and halves are its chunk sizes. */
  lemma {:induction false} ZigzagTest(cpSize: nat, m: nat)
    requires cpSize > 0
    ensures (cpSize * m) % (2 * cpSize) == 0 <==> m % 2 == 0
    ensures (cpSize * m) / (2 * cpSize) == m / 2
    ensures (cpSize * m) / 2 / cpSize == m / 2
    ensures (cpSize * m) / cpSize == m && (cpSize * m) % cpSize == 0
  {
    var c, r := m / 2, if m % 2 == 0 then 0 else cpSize;
    HalvesAndRest(cpSize, m, c, r);
    DivModUnique(cpSize * m, 2 * cpSize, c, r);
    DivModUnique(cpSize * m / 2, cpSize, c, r / 2);
    DivCancel(m, cpSize);
  }

  lemma {:induction false} HalvesAndRest(cpSize: nat, m: nat, c: nat, r: nat)
    requires c == m / 2 && r == if m % 2 == 0 then 0 else cpSize
    ensures cpSize * m == c * (2 * cpSize) + r
    ensures cpSize * m / 2 == c * cpSize + r / 2
  {
    assert c * (2 * cpSize) == 2 * (c * cpSize);
    assert cpSize * (2 * c) == 2 * (c * cpSize);
    if m % 2 == 1 { assert cpSize * (2 * c + 1) == cpSize * (2 * c) + cpSize; }
  }

  lemma LensAt(cu: seq<nat>, cpSize: nat, i: nat)
    requires IsCumulative(cu) && cpSize > 0 && AllDivisible(cu, cpSize) && i < |cu| - 1
    ensures cu[i + 1] - cu[i] == cpSize * LocalLens(cu, cpSize)[i]
  {
    assert (cu[i + 1] - cu[i]) % cpSize == 0;
  }

  /** `_get_cp_sequence_lengths`; `None` stands for its two errors. */
  method GetCpSequenceLengths(cu: seq<nat>, cpSize: nat, localTotalLen: nat) returns (locals: Option<seq<nat>>)
    requires IsCumulative(cu) && cpSize > 0
    ensures locals.Some? <==> AllDivisible(cu, cpSize) && LocalTotal(LocalLens(cu, cpSize)) == localTotalLen
    ensures locals.Some? ==> locals.value == LocalLens(cu, cpSize)
  {
    var lens: seq<nat> := [];
    var total := 0;
    for i := 0 to |cu| - 1
      invariant |lens| == i && lens == LocalLens(cu, cpSize)[..i] && total == LocalTotal(lens)
      invariant forall j :: 0 <= j < i ==> (cu[j + 1] - cu[j]) % cpSize == 0
    {
      var g := cu[i + 1] - cu[i];
      if g % cpSize != 0 { return None; }
      LocalTotalSnoc(lens, g / cpSize);
      lens, total := lens + [g / cpSize], total + g / cpSize;
    }
    assert lens == LocalLens(cu, cpSize);
    locals := if total == localTotalLen then Some(lens) else None;
  }

  lemma {:induction false} LocalTotalSnoc(lens: seq<nat>, m: nat)
    ensures LocalTotal(lens + [m]) == LocalTotal(lens) + m
  {
    if lens == [] {
      assert ([] + [m])[1..] == [];
    } else {
      LocalTotalSnoc(lens[1..], m);
      assert (lens + [m])[1..] == lens[1..] + [m];
    }
  }

  /** One sequence of the gather loop, from the pieces of all ranks. */
  method RebuildSequence<T>(perRank: seq<seq<T>>, globalLen: nat, ghost m: nat) returns (full: seq<T>)
    requires perRank != [] && globalLen == |perRank| * m && AllOfSize(perRank, m)
    ensures full == ToFull(perRank, m)
  {
    var cpSize := |perRank|;
    ZigzagTest(cpSize, m);
    if globalLen % (2 * cpSize) == 0 {
      var sub := globalLen / (2 * cpSize);
      var first: seq<seq<T>> := [];
      var second: seq<seq<T>> := [];
      for r := 0 to cpSize
        invariant |first| == |second| == r
        invariant forall x :: 0 <= x < r ==> first[x] == perRank[x][..sub] && second[r - 1 - x] == perRank[x][sub..]
      {
        first, second := first + [perRank[r][..sub]], [perRank[r][sub..]] + second;
      }
      assert first + second == ChunksOf(perRank, sub);
      full := Cat(first + second);
    } else {
      full := Cat(perRank);
    }
  }

  /** `_zigzag_to_packed_shard_impl` on rank `cpRank`, `gathered` being every rank's input. */
  method ZigzagToPackedShard<T>(gathered: seq<seq<T>>, cu: seq<nat>, cpRank: nat) returns (out: Option<seq<T>>)
    requires IsCumulative(cu) && cpRank < |gathered| && AllOfSize(gathered, |gathered[0]|)
    ensures out.Some? <==>
      AllDivisible(cu, |gathered|) && LocalTotal(LocalLens(cu, |gathered|)) == |gathered[0]|
    ensures out.Some? ==> out.value == ZigzagToPacked(gathered, LocalLens(cu, |gathered|))[cpRank]
  {
    var cpSize := |gathered|;
    var locals := GetCpSequenceLengths(cu, cpSize, |gathered[cpRank]|);
    if locals.None? { return None; }
    var lens := locals.value;
    var stream := GatherStream(gathered, cu, lens);
    TotalsAgree(lens, cpSize);
    var shard := TakeShard(stream, |gathered[cpRank]|, cpSize, cpRank);
    out := Some(shard);
  }

  method TakeShard<T>(stream: seq<T>, shardLen: nat, cpSize: nat, cpRank: nat) returns (shard: seq<T>)
    requires cpRank < cpSize && |stream| == cpSize * shardLen
    ensures shard == Cut(stream, shardLen, cpSize)[cpRank]
  {
    CutAt(stream, shardLen, cpSize, cpRank);
    MulSucc(cpRank, shardLen);
    MulMonotone(0, cpRank, shardLen);
    shard := stream[cpRank * shardLen..(cpRank + 1) * shardLen];
  }

  method GatherStream<T>(gathered: seq<seq<T>>, cu: seq<nat>, lens: seq<nat>) returns (stream: seq<T>)
    requires IsCumulative(cu) && gathered != [] && AllDivisible(cu, |gathered|) && lens == LocalLens(cu, |gathered|)
    requires IsSharded(gathered, lens)
    ensures stream == FullStream(gathered, lens)
  {
    var fullSequences: seq<seq<T>> := [];
    var rest := gathered;
    for i := 0 to |lens|
      invariant |rest| == |gathered| && IsSharded(rest, lens[i..])
      invariant Cat(fullSequences) + FullStream(rest, lens[i..]) == FullStream(gathered, lens)
    {
      LensAt(cu, |gathered|, i);
      var full := RebuildSequence(Heads(rest, lens[i]), cu[i + 1] - cu[i], lens[i]);
      GatherStep(fullSequences, rest, lens, i, full);
      fullSequences, rest := fullSequences + [full], Tails(rest, lens[i]);
    }
    stream := Cat(fullSequences);
  }

  lemma GatherStep<T>(done: seq<seq<T>>, rest: seq<seq<T>>, lens: seq<nat>, i: nat, full: seq<T>)
    requires i < |lens| && IsSharded(rest, lens[i..])
    requires LocalTotal(lens[i..]) == lens[i] + LocalTotal(lens[i + 1..])
    requires full == ToFull(Heads(rest, lens[i]), lens[i])
    ensures IsSharded(Tails(rest, lens[i]), lens[i + 1..])
    ensures Cat(done + [full]) + FullStream(Tails(rest, lens[i]), lens[i + 1..])
        == Cat(done) + FullStream(rest, lens[i..])
  {
    CatSnoc(done, full);
    ConcatAssociates(Cat(done), full, FullStream(Tails(rest, lens[i]), lens[i + 1..]));
  }

  lemma ConcatAssociates<T>(a: seq<T>, b: seq<T>, c: seq<T>)
    ensures (a + b) + c == a + (b + c)
  {
  }

  /** One sequence of the scatter loop. */
  method CutSequence<T>(full: seq<T>, cpSize: nat, cpRank: nat, ghost m: nat) returns (piece: seq<T>)
    requires cpRank < cpSize && |full| == cpSize * m
    ensures piece == ToLocal(full, cpSize, m, cpRank)
  {
    ZigzagTest(cpSize, m);
    if |full| % (2 * cpSize) == 0 {
      HalfChunks(cpSize, m);
      var parts := Cut(full, |full| / (2 * cpSize), 2 * cpSize);
      piece := parts[cpRank] + parts[2 * cpSize - 1 - cpRank];
    } else {
      piece := Cut(full, |full| / cpSize, cpSize)[cpRank];
    }
  }

  /** `_packed_shard_to_zigzag_impl` on rank `cpRank`. */
  method PackedShardToZigzag<T>(gathered: seq<seq<T>>, cu: seq<nat>, cpRank: nat) returns (out: Option<seq<T>>)
    requires IsCumulative(cu) && cpRank < |gathered| && AllOfSize(gathered, |gathered[0]|)
    ensures out.Some? <==>
      AllDivisible(cu, |gathered|) && LocalTotal(LocalLens(cu, |gathered|)) == |gathered[0]|
    ensures out.Some? ==> out.value == PackedToZigzag(gathered, LocalLens(cu, |gathered|))[cpRank]
  {
    var cpSize := |gathered|;
    var locals := GetCpSequenceLengths(cu, cpSize, |gathered[cpRank]|);
    if locals.None? { return None; }
    CatSize(gathered, LocalTotal(locals.value));
    TotalsAgree(locals.value, cpSize);
    var shard := ScatterStream(Cat(gathered), cu, locals.value, cpSize, cpRank);
    out := Some(shard);
  }

  method ScatterStream<T>(stream: seq<T>, cu: seq<nat>, lens: seq<nat>, cpSize: nat, cpRank: nat)
    returns (shard: seq<T>)
    requires IsCumulative(cu) && cpRank < cpSize && AllDivisible(cu, cpSize) && lens == LocalLens(cu, cpSize)
    requires |stream| == GlobalTotal(lens, cpSize)
    ensures shard == LocalStream(stream, lens, cpSize, cpRank)
  {
    var localSequences: seq<seq<T>> := [];
    var rest := stream;
    for i := 0 to |lens|
      invariant |rest| == GlobalTotal(lens[i..], cpSize)
      invariant Cat(localSequences) + LocalStream(rest, lens[i..], cpSize, cpRank)
          == LocalStream(stream, lens, cpSize, cpRank)
    {
      LensAt(cu, cpSize, i);
      ScatterSizes(rest, lens, cpSize, i);
      var g := cu[i + 1] - cu[i];
      var piece := CutSequence(rest[..g], cpSize, cpRank, lens[i]);
      ScatterStep(localSequences, rest, lens, cpSize, cpRank, i, piece, g);
      localSequences, rest := localSequences + [piece], rest[g..];
    }
    shard := Cat(localSequences);
  }

  lemma ScatterSizes<T>(rest: seq<T>, lens: seq<nat>, cpSize: nat, i: nat)
    requires i < |lens| && |rest| == GlobalTotal(lens[i..], cpSize)
    ensures 0 <= cpSize * lens[i] <= |rest| && |rest| - cpSize * lens[i] == GlobalTotal(lens[i + 1..], cpSize)
  {
    MulMonotone(0, cpSize, lens[i]);
  }

  lemma ScatterStep<T>(done: seq<seq<T>>, rest: seq<T>, lens: seq<nat>, cpSize: nat, r: nat, i: nat, piece: seq<T>,
                       g: nat)
    requires i < |lens| && r < cpSize && g == cpSize * lens[i] <= |rest|
    requires |rest| == GlobalTotal(lens[i..], cpSize) && |rest| - g == GlobalTotal(lens[i + 1..], cpSize)
    requires piece == ToLocal(rest[..g], cpSize, lens[i], r)
    ensures Cat(done + [piece]) + LocalStream(rest[g..], lens[i + 1..], cpSize, r)
         == Cat(done) + LocalStream(rest, lens[i..], cpSize, r)
  {
    CatSnoc(done, piece);
    ConcatAssociates(Cat(done), piece, LocalStream(rest[g..], lens[i + 1..], cpSize, r));
  }
}
