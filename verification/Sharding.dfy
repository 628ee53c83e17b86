/**
  Cutting a stream of tensors into size-bounded pieces: the shard writer of
  `miles/backends/megatron_utils/hf_export.py` and the chunker of `miles/utils/iter_utils.py`.

  Both are instances of one function; they differ in whether a piece may reach its limit exactly.
 */
module Sharding {
  import opened Arith
  import opened Options

  // ---------------------------------------------------------------- the reference

  function TotalSize<T>(items: seq<T>, size: T -> nat): nat {
    if items == [] then 0 else TotalSize(items[..|items| - 1], size) + size(items[|items| - 1])
  }

  /** Items in order, a new chunk whenever the next item would take the last one over `most`. */
  function Chunks<T>(items: seq<T>, size: T -> nat, most: int): seq<seq<T>> {
    if items == [] then [] else
      Append(Chunks(items[..|items| - 1], size, most), items[|items| - 1], size, most)
  }

  function Append<T>(chunks: seq<seq<T>>, item: T, size: T -> nat, most: int): seq<seq<T>> {
    if chunks == [] then [[item]] else
      var n := |chunks| - 1;
      if chunks[n] != [] && TotalSize(chunks[n], size) + size(item) > most then chunks + [[item]]
      else chunks[n := chunks[n] + [item]]
  }

  lemma TotalSnoc<T>(items: seq<T>, item: T, size: T -> nat)
    ensures TotalSize(items + [item], size) == TotalSize(items, size) + size(item)
  {
    assert (items + [item])[..|items|] == items;
  }

  function Flatten<T>(chunks: seq<seq<T>>): seq<T> {
    if chunks == [] then [] else Flatten(chunks[..|chunks| - 1]) + chunks[|chunks| - 1]
  }

  lemma PrefixSnoc<T>(s: seq<T>, i: nat)
    requires i < |s|
    ensures s[..i + 1] == s[..i] + [s[i]]
  {
  }

  /** One more item goes to the end of the flattened chunks. */
  lemma AppendFlattens<T>(chunks: seq<seq<T>>, item: T, size: T -> nat, most: int)
    ensures Flatten(Append(chunks, item, size, most)) == Flatten(chunks) + [item]
  {
    if chunks == [] {
      assert [] + [[item]] == [[item]];
    } else {
      var n := |chunks| - 1;
      assert chunks[n := chunks[n] + [item]] == chunks[..n] + [chunks[n] + [item]];
    }
  }

  /** Every item is in exactly one chunk, and the order is kept. */
  lemma {:induction false} ChunksPartition<T>(items: seq<T>, size: T -> nat, most: int)
    ensures Flatten(Chunks(items, size, most)) == items
  {
    if items != [] {
      var n := |items| - 1;
      ChunksPartition(items[..n], size, most);
      AppendFlattens(Chunks(items[..n], size, most), items[n], size, most);
    }
  }

  /** A chunk is never empty, and over its limit only if it is a single item. */
  ghost predicate Bounded<T>(chunk: seq<T>, size: T -> nat, most: int) {
    chunk != [] && (TotalSize(chunk, size) <= most || |chunk| == 1)
  }

  ghost predicate AllBounded<T>(chunks: seq<seq<T>>, size: T -> nat, most: int) {
    forall i :: 0 <= i < |chunks| ==> Bounded(chunks[i], size, most)
  }

  /** Two neighbours together are over the limit. */
  ghost predicate Adjacent<T>(chunks: seq<seq<T>>, size: T -> nat, most: int) {
    forall i :: 0 < i < |chunks| ==> TotalSize(chunks[i - 1], size) + TotalSize(chunks[i], size) > most
  }

  lemma {:induction false} ChunksBounded<T>(items: seq<T>, size: T -> nat, most: int)
    ensures AllBounded(Chunks(items, size, most), size, most)
  {
    if items != [] {
      var before, item := Chunks(items[..|items| - 1], size, most), items[|items| - 1];
      ChunksBounded(items[..|items| - 1], size, most);
      if before != [] { TotalSnoc(before[|before| - 1], item, size); }
    }
  }

  lemma {:induction false} ChunksAdjacent<T>(items: seq<T>, size: T -> nat, most: int)
    ensures Adjacent(Chunks(items, size, most), size, most)
  {
    if items != [] {
      var before, item := Chunks(items[..|items| - 1], size, most), items[|items| - 1];
      ChunksAdjacent(items[..|items| - 1], size, most);
      if before != [] { TotalSnoc(before[|before| - 1], item, size); }
      TotalSnoc([], item, size);
      assert [] + [item] == [item];
    }
  }

  /** The first item of a chunk would have put the one before it over the limit: a chunk is closed only then. */
  ghost predicate ClosedLate<T>(chunks: seq<seq<T>>, size: T -> nat, most: int) {
    forall i :: 0 < i < |chunks| ==> chunks[i] != [] && TotalSize(chunks[i - 1], size) + size(chunks[i][0]) > most
  }

  lemma {:induction false} ChunksClosedLate<T>(items: seq<T>, size: T -> nat, most: int)
    ensures ClosedLate(Chunks(items, size, most), size, most)
  {
    if items != [] {
      ChunksClosedLate(items[..|items| - 1], size, most);
      ChunksBounded(items[..|items| - 1], size, most);
    }
  }

  /** Neighbours over the limit cannot be many: `m - 1` pairs count every chunk at most twice. */
  lemma {:induction false} AdjacentTotal<T>(chunks: seq<seq<T>>, size: T -> nat, most: int)
    requires Adjacent(chunks, size, most) && chunks != []
    ensures (|chunks| - 1) * (most + 1) + TotalSize(chunks[|chunks| - 1], size) <= 2 * TotalSize(Flatten(chunks), size)
  {
    var n := |chunks| - 1;
    TotalConcat(Flatten(chunks[..n]), chunks[n], size);
    if n > 0 {
      AdjacentTotal(chunks[..n], size, most);
      MulSucc(n - 1, most + 1);
    }
  }

  lemma {:induction false} TotalConcat<T>(a: seq<T>, b: seq<T>, size: T -> nat)
    ensures TotalSize(a + b, size) == TotalSize(a, size) + TotalSize(b, size)
  {
    if b == [] {
      assert a + b == a;
    } else {
      var n := |b| - 1;
      assert a + b == (a + b[..n]) + [b[n]];
      TotalSnoc(a + b[..n], b[n], size);
      TotalConcat(a, b[..n], size);
    }
  }

  /** A linear bound on the number of chunks. */
  lemma ChunkCount<T>(items: seq<T>, size: T -> nat, most: int)
    ensures items != [] ==> (|Chunks(items, size, most)| - 1) * (most + 1) <= 2 * TotalSize(items, size)
  {
    ChunksAdjacent(items, size, most);
    ChunksPartition(items, size, most);
    if items != [] { AdjacentTotal(Chunks(items, size, most), size, most); }
  }

  // ---------------------------------------------------------------- one pass

  /** The pieces that are closed and the one being filled are the chunks of what was passed. */
  ghost predicate Filling<T>(items: seq<T>, closed: seq<seq<T>>, open_: seq<T>, size: T -> nat, most: int,
                             openSize: nat) {
    && (open_ == [] ==> closed == []) && openSize == TotalSize(open_, size)
    && Chunks(items, size, most) == if open_ == [] then [] else closed + [open_]
  }

  lemma FillHere<T>(items: seq<T>, closed: seq<seq<T>>, open_: seq<T>, size: T -> nat, most: int, openSize: nat,
                    item: T)
    requires Filling(items, closed, open_, size, most, openSize)
    requires open_ == [] || openSize + size(item) <= most
    ensures Filling(items + [item], closed, open_ + [item], size, most, openSize + size(item))
  {
    TotalSnoc(open_, item, size);
    if open_ == [] { assert [] + [item] == [item]; }
  }

  lemma FillNext<T>(items: seq<T>, closed: seq<seq<T>>, open_: seq<T>, size: T -> nat, most: int, openSize: nat,
                    item: T)
    requires Filling(items, closed, open_, size, most, openSize)
    requires open_ != [] && openSize + size(item) > most
    ensures Filling(items + [item], closed + [open_], [] + [item], size, most, 0 + size(item))
  {
    TotalSnoc([], item, size);
    assert [] + [item] == [item];
    assert (items + [item])[..|items|] == items;
  }

  // ---------------------------------------------------------------- the chunker

  /** `_chunk_by_size`: what it yields, in order.  A chunk is closed before it reaches `chunkSize`. */
  method ChunkBySize<T>(objects: seq<T>, computeSize: T -> nat, chunkSize: int) returns (chunks: seq<seq<T>>)
    ensures chunks == Chunks(objects, computeSize, chunkSize - 1)
  {
    chunks := [];
    var bucket: seq<T> := [];
    var bucketSize: nat := 0;
    for i := 0 to |objects|
      invariant Filling(objects[..i], chunks, bucket, computeSize, chunkSize - 1, bucketSize)
    {
      var obj := objects[i];
      PrefixSnoc(objects, i);
      var objSize := computeSize(obj);
      if bucket != [] && bucketSize + objSize >= chunkSize {
        FillNext(objects[..i], chunks, bucket, computeSize, chunkSize - 1, bucketSize, obj);
        chunks := chunks + [bucket];
        bucket := [];
        bucketSize := 0;
      } else {
        FillHere(objects[..i], chunks, bucket, computeSize, chunkSize - 1, bucketSize, obj);
      }
      bucket := bucket + [obj];
      bucketSize := bucketSize + objSize;
    }
    assert objects[..|objects|] == objects;
    if bucket != [] { chunks := chunks + [bucket]; }
  }

  // ---------------------------------------------------------------- the writer

  datatype Tensor = Tensor(name: string, size: nat)

  function SizeOf(t: Tensor): nat { t.size }

  ghost predicate DistinctNames(tensors: seq<Tensor>) {
    forall i, j :: 0 <= i < j < |tensors| ==> tensors[i].name != tensors[j].name
  }

  /** The names that were seen are those of what was added, each once. */
  ghost predicate Named(added: seq<Tensor>, seen: set<string>) {
    && (forall i :: 0 <= i < |added| ==> added[i].name in seen)
    && (forall name :: name in seen ==> HasName(added, name)) && DistinctNames(added)
  }

  ghost predicate HasName(added: seq<Tensor>, name: string) {
    exists i :: 0 <= i < |added| && added[i].name == name
  }

  lemma NamedOn(added: seq<Tensor>, seen: set<string>, t: Tensor)
    requires Named(added, seen) && t.name !in seen
    ensures Named(added + [t], seen + {t.name})
  {
    var added' := added + [t];
    forall name | name in seen + {t.name} ensures HasName(added', name) {
      if name == t.name {
        assert added'[|added|].name == name;
      } else {
        var i :| 0 <= i < |added| && added[i].name == name;
        assert added'[i].name == name;
      }
    }
  }

  /** A final file name: shard number, counted from 1, of how many. */
  datatype Shard = Shard(number: nat, of_: nat)

  /** The index file and the shards under their final names. */
  datatype Export = Export(totalSize: nat, weightMap: map<string, Shard>, files: map<Shard, seq<Tensor>>)

  class ShardedSafetensorsWriter {
    const maxShardSize: int
    var totalSize: nat
    var current: seq<Tensor>
    var currentSize: nat
    var flushedShards: seq<seq<Tensor>>
    var seenNames: set<string>
    /** All tensors added so far. */
    ghost var added: seq<Tensor>

    ghost predicate Valid()
      reads this
    {
      && Filling(added, flushedShards, current, SizeOf, maxShardSize, currentSize)
      && totalSize == TotalSize(added, SizeOf) && Named(added, seenNames)
    }

    constructor (maxShardSize: int)
      ensures Valid() && added == [] && this.maxShardSize == maxShardSize
    {
      this.maxShardSize := maxShardSize;
      totalSize, current, currentSize, flushedShards, seenNames, added := 0, [], 0, [], {}, [];
    }

    /** `add`; `false` is the error for a name that was added before. */
    method Add(t: Tensor) returns (ok: bool)
      requires Valid()
      modifies this
      ensures Valid() && (ok <==> !HasName(old(added), t.name))
      ensures added == if ok then old(added) + [t] else old(added)
    {
      if t.name in seenNames { return false; }
      NamedOn(added, seenNames, t);
      TotalSnoc(added, t, SizeOf);
      seenNames := seenNames + {t.name};
      Store(t);
      added := added + [t];
      ok := true;
    }

    /** Puts a tensor in the current shard, or in a new one. */
    method Store(t: Tensor)
      requires Filling(added, flushedShards, current, SizeOf, maxShardSize, currentSize)
      modifies this`flushedShards, this`current, this`currentSize, this`totalSize
      ensures Filling(added + [t], flushedShards, current, SizeOf, maxShardSize, currentSize)
      ensures totalSize == old(totalSize) + t.size
    {
      if current != [] && currentSize + t.size > maxShardSize {
        Flush();
      } else {
        FillHere(added, flushedShards, current, SizeOf, maxShardSize, currentSize, t);
      }
      current := current + [t];
      currentSize := currentSize + t.size;
      totalSize := totalSize + t.size;
    }

    /** `_flush` */
    method Flush()
      modifies this`flushedShards, this`current, this`currentSize
      ensures flushedShards == old(flushedShards) + [old(current)] && current == [] && currentSize == 0
    {
      flushedShards := flushedShards + [current];
      current := [];
      currentSize := 0;
    }

    /** `finalize`; `None` is the error for an export without tensors. */
    method Finalize() returns (export_: Option<Export>)
      requires Valid()
      modifies this`flushedShards, this`current, this`currentSize
      ensures export_.None? <==> added == []
      ensures export_.Some? ==> export_.value.totalSize == TotalSize(added, SizeOf)
      ensures export_.Some? ==> Published(export_.value, added, Chunks(added, SizeOf, maxShardSize))
    {
      if current != [] { Flush(); }
      assert flushedShards == Chunks(added, SizeOf, maxShardSize);
      if flushedShards == [] { return None; }
      ChunksPartition(added, SizeOf, maxShardSize);
      var weightMap, files := Publish(flushedShards);
      export_ := Some(Export(totalSize, weightMap, files));
    }
  }

  // ---------------------------------------------------------------- the index

  /** Every shard has its final file, every name maps to the file that holds its tensor, and nothing else is mapped. */
  ghost predicate Published(e: Export, added: seq<Tensor>, shards: seq<seq<Tensor>>) {
    FilesOk(e.files, shards, |shards|) && MapOk(e.weightMap, shards, |shards|) && Flatten(shards) == added
  }

  ghost predicate FileOk(files: map<Shard, seq<Tensor>>, i: nat, tensors: seq<Tensor>, of_: nat) {
    Shard(i + 1, of_) in files && files[Shard(i + 1, of_)] == tensors
  }

  ghost predicate FilesOk(files: map<Shard, seq<Tensor>>, shards: seq<seq<Tensor>>, of_: nat) {
    && (forall i :: 0 <= i < |shards| ==> FileOk(files, i, shards[i], of_))
    && forall f :: f in files ==> f.of_ == of_ && 1 <= f.number <= |shards|
  }

  ghost predicate MapOk(weightMap: map<string, Shard>, shards: seq<seq<Tensor>>, of_: nat) {
    && (forall i, j :: 0 <= i < |shards| && 0 <= j < |shards[i]| ==>
          shards[i][j].name in weightMap && weightMap[shards[i][j].name] == Shard(i + 1, of_))
    && forall name :: name in weightMap ==> HasName(Flatten(shards), name)
  }

  lemma HasNameOn(a: seq<Tensor>, b: seq<Tensor>, name: string)
    ensures HasName(a + b, name) <==> HasName(a, name) || HasName(b, name)
  {
    if HasName(a, name) {
      var i :| 0 <= i < |a| && a[i].name == name;
      assert (a + b)[i].name == name;
    }
    if HasName(b, name) {
      var i :| 0 <= i < |b| && b[i].name == name;
      assert (a + b)[|a| + i].name == name;
    }
  }

  lemma {:induction false} FlattenPrefix(shards: seq<seq<Tensor>>, i: nat)
    requires i <= |shards|
    ensures Flatten(shards[..i]) <= Flatten(shards)
  {
    if i < |shards| {
      var n := |shards| - 1;
      FlattenPrefix(shards[..n], i);
      assert shards[..n][..i] == shards[..i];
    } else {
      assert shards[..i] == shards;
    }
  }

  lemma {:induction false} InFlatten(shards: seq<seq<Tensor>>, i: nat, j: nat)
    requires i < |shards| && j < |shards[i]|
    ensures HasName(Flatten(shards), shards[i][j].name)
  {
    var n := |shards| - 1;
    HasNameOn(Flatten(shards[..n]), shards[n], shards[i][j].name);
    if i < n {
      InFlatten(shards[..n], i, j);
    } else {
      assert HasName(shards[n], shards[i][j].name);
    }
  }

  /** In a list of distinct names no name occurs both in the first part and in the second. */
  lemma DistinctParts(a: seq<Tensor>, b: seq<Tensor>, name: string)
    requires DistinctNames(a + b)
    ensures !(HasName(a, name) && HasName(b, name))
  {
    forall i, j | 0 <= i < |a| && 0 <= j < |b| ensures a[i].name != b[j].name {
      assert (a + b)[i] == a[i] && (a + b)[|a| + j] == b[j];
    }
  }

  /** A map with the names of one more shard, and otherwise as it was. */
  ghost predicate MapsShard(before: map<string, Shard>, names: seq<Tensor>, final: Shard, after: map<string, Shard>) {
    && (forall j :: 0 <= j < |names| ==> names[j].name in after && after[names[j].name] == final)
    && (forall name :: name in before ==> name in after && (!HasName(names, name) ==> after[name] == before[name]))
    && (forall name :: name in after ==> name in before || HasName(names, name))
  }

  lemma {:induction false} MapOkOn(before: map<string, Shard>, shards: seq<seq<Tensor>>, names: seq<Tensor>, of_: nat,
                                   after: map<string, Shard>)
    requires MapOk(before, shards, of_) && DistinctNames(Flatten(shards) + names)
    requires MapsShard(before, names, Shard(|shards| + 1, of_), after)
    ensures MapOk(after, shards + [names], of_)
  {
    var shards': seq<seq<Tensor>> := shards + [names];
    forall i: nat, j: nat | i < |shards'| && j < |shards'[i]|
      ensures shards'[i][j].name in after && after[shards'[i][j].name] == Shard(i + 1, of_)
    {
      if i < |shards| {
        InFlatten(shards, i, j);
        DistinctParts(Flatten(shards), names, shards[i][j].name);
      }
    }
    forall name | name in after ensures HasName(Flatten(shards'), name) {
      HasNameOn(Flatten(shards), names, name);
    }
  }

  method MapShard(before: map<string, Shard>, names: seq<Tensor>, final: Shard) returns (after: map<string, Shard>)
    ensures MapsShard(before, names, final, after)
  {
    after := before;
    for j := 0 to |names|
      invariant forall l :: 0 <= l < j ==> names[l].name in after && after[names[l].name] == final
      invariant forall name :: name in before ==>
          name in after && (!HasName(names, name) ==> after[name] == before[name])
      invariant forall name :: name in after ==> name in before || HasName(names, name)
    {
      assert HasName(names, names[j].name);
      after := after[names[j].name := final];
    }
  }

  /** The first `i + 1` shards. */
  lemma {:induction false} NextShard(shards: seq<seq<Tensor>>, i: nat)
    requires i < |shards| && DistinctNames(Flatten(shards))
    ensures shards[..i + 1] == shards[..i] + [shards[i]]
    ensures DistinctNames(Flatten(shards[..i]) + shards[i])
  {
    PrefixSnoc(shards, i);
    FlattenPrefix(shards, i + 1);
  }

  /** The loop of `finalize` over the shards. */
  method Publish(shards: seq<seq<Tensor>>) returns (weightMap: map<string, Shard>, files: map<Shard, seq<Tensor>>)
    requires DistinctNames(Flatten(shards))
    ensures FilesOk(files, shards, |shards|) && MapOk(weightMap, shards, |shards|)
  {
    weightMap, files := map[], map[];
    for i := 0 to |shards|
      invariant FilesOk(files, shards[..i], |shards|) && MapOk(weightMap, shards[..i], |shards|)
    {
      NextShard(shards, i);
      ghost var before := weightMap;
      files := files[Shard(i + 1, |shards|) := shards[i]];
      weightMap := MapShard(weightMap, shards[i], Shard(i + 1, |shards|));
      MapOkOn(before, shards[..i], shards[i], |shards|, weightMap);
    }
    assert shards[..|shards|] == shards;
  }
}
