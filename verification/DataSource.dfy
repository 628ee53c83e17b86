/**
  Prompt data for rollouts: `Dataset.shuffle` (`miles/utils/data.py`), and the resumable source with its buffer
  (`miles/rollout/data_source.py`).

  The reference is the infinite stream of the epochs, each a permutation of the data set that is fixed by its number.
 */
module DataSource {
  import opened Arith
  import opened Options
  import opened Sequences

  type Prompt = string

  /** A sample of a group: its prompt, the index of its group, and its own index. */
  datatype Item = Item(prompt: Prompt, group: nat, index: nat)

  /** `size` copies of a prompt, numbered from `first` on. */
  function MakeGroup(prompt: Prompt, group: nat, first: nat, size: nat): seq<Item> {
    seq(size, i requires 0 <= i < size => Item(prompt, group, first + i))
  }

  // ---------------------------------------------------------------- the stream of epochs

  /** The data set in file order, whether epochs are shuffled, and the permutation that seed and epoch number give. */
  datatype Corpus = Corpus(origin: seq<Prompt>, shuffled: bool, permutation: nat -> seq<nat>) {
    ghost predicate Valid() {
      forall e: nat :: IsPermutation(permutation(e), |origin|)
    }

    function Epoch(e: nat): (s: seq<Prompt>)
      requires Valid()
      ensures |s| == |origin|
    {
      if shuffled then Pick(origin, permutation(e)) else origin
    }

    /** Element number `p` of epoch `e` and all later ones, one after another. */
    function StreamFrom(e: nat, p: nat): Prompt
      requires Valid() && origin != []
      decreases p
    {
      if p < |origin| then Epoch(e)[p] else StreamFrom(e + 1, p - |origin|)
    }

    /** Element number `p` of all epochs. */
    function Stream(p: nat): Prompt
      requires Valid() && origin != []
    {
      StreamFrom(0, p)
    }
  }

  /** Element `o` of epoch `e`, counted from the start of the stream. */
  ghost function PositionOf(e: nat, o: nat, size: nat): nat {
    if e == 0 then o else PositionOf(e - 1, size + o, size)
  }

  lemma {:induction false} PositionIsProduct(e: nat, o: nat, size: nat)
    ensures PositionOf(e, o, size) == e * size + o
  {
    if e > 0 {
      PositionIsProduct(e - 1, size + o, size);
      MulSucc(e - 1, size);
    }
  }

  lemma {:induction false} PositionAdd(e: nat, o: nat, n: nat, size: nat)
    ensures PositionOf(e, o + n, size) == PositionOf(e, o, size) + n
  {
    if e > 0 { PositionAdd(e - 1, size + o, n, size); }
  }

  /** Starting at a later epoch is skipping the earlier ones. */
  lemma {:induction false} SkipEpochs(c: Corpus, e: nat, p: nat)
    requires c.Valid() && c.origin != []
    ensures c.StreamFrom(e, p) == c.Stream(PositionOf(e, p, |c.origin|))
  {
    if e > 0 { SkipEpochs(c, e - 1, |c.origin| + p); }
  }

  /** Which prompt the stream has at a position: every epoch goes through the data set by its own permutation. */
  lemma {:induction false} StreamIsPermuted(c: Corpus, p: nat)
    requires c.Valid() && c.origin != []
    ensures var e, o := p / |c.origin|, p % |c.origin|;
      && IsPermutation(c.permutation(e), |c.origin|)
      && c.Stream(p) == c.origin[if c.shuffled then c.permutation(e)[o] else o]
  {
    EpochOf(c, 0, p);
  }

  lemma {:induction false} EpochOf(c: Corpus, e: nat, p: nat)
    requires c.Valid() && c.origin != []
    ensures IsPermutation(c.permutation(e + p / |c.origin|), |c.origin|)
    ensures c.StreamFrom(e, p)
         == c.origin[if c.shuffled then c.permutation(e + p / |c.origin|)[p % |c.origin|] else p % |c.origin|]
    decreases p
  {
    var size := |c.origin|;
    if p < size {
      DivModUnique(p, size, 0, p);
    } else {
      EpochOf(c, e + 1, p - size);
      OneBlockLess(p, size);
    }
  }

  lemma {:induction false} OneBlockLess(p: nat, size: nat)
    requires 0 < size <= p
    ensures (p - size) / size + 1 == p / size && (p - size) % size == p % size
  {
    var q := (p - size) / size;
    MulSucc(q, size);
    DivModUnique(p, size, q + 1, (p - size) % size);
  }

  ghost predicate IsPermutation(p: seq<nat>, n: nat) {
    multiset(p) == multiset(Range(n)) && |p| == n && forall i :: 0 <= i < |p| ==> p[i] < n
  }

  function Range(n: nat): (r: seq<nat>)
    ensures |r| == n && forall i :: 0 <= i < n ==> r[i] == i
  {
    seq(n, i => i)
  }

  function Pick(s: seq<Prompt>, p: seq<nat>): (r: seq<Prompt>)
    requires forall i :: 0 <= i < |p| ==> p[i] < |s|
    ensures |r| == |p| && forall i :: 0 <= i < |p| ==> r[i] == s[p[i]]
  {
    seq(|p|, i requires 0 <= i < |p| => s[p[i]])
  }

  ghost predicate Within(p: seq<nat>, n: nat) {
    forall i :: 0 <= i < |p| ==> p[i] < n
  }

  lemma PickRemove(s: seq<Prompt>, q: seq<nat>, j: nat)
    requires Within(q, |s|) && j < |q|
    ensures Within(Remove(q, j), |s|) && Remove(Pick(s, q), j) == Pick(s, Remove(q, j))
    ensures multiset(Pick(s, q)) == multiset(Pick(s, Remove(q, j))) + multiset{s[q[j]]}
  {
    RemoveMultiset(Pick(s, q), j);
    assert Remove(Pick(s, q), j) == Pick(s, Remove(q, j));
  }

  lemma {:induction false} PickPermutation(s: seq<Prompt>, p: seq<nat>, q: seq<nat>)
    requires Within(p, |s|) && Within(q, |s|) && multiset(p) == multiset(q)
    ensures multiset(Pick(s, p)) == multiset(Pick(s, q))
  {
    if p == [] {
      assert |multiset(q)| == 0;
    } else {
      var j := FindFirst(p, q);
      PickRemove(s, q, j);
      PickRemove(s, p, 0);
      RemoveTail(p, 0);
      PickPermutation(s, p[1..], Remove(q, j));
    }
  }

  /** Every epoch serves every prompt of the data set as often as it occurs there. */
  lemma EpochIsPermutation(c: Corpus, e: nat)
    requires c.Valid()
    ensures multiset(c.Epoch(e)) == multiset(c.origin)
  {
    if c.shuffled {
      assert IsPermutation(c.permutation(e), |c.origin|);
      PickPermutation(c.origin, c.permutation(e), Range(|c.origin|));
      assert Pick(c.origin, Range(|c.origin|)) == c.origin;
    }
  }

  class Dataset {
    const corpus: Corpus
    var samples: seq<Prompt>
    var epochId: int

    constructor (corpus: Corpus)
      ensures this.corpus == corpus && samples == corpus.origin && epochId == -1
    {
      this.corpus := corpus;
      samples, epochId := corpus.origin, -1;
    }

    /** The cached order is the file's until a shuffle, and then that of the epoch it was made for. */
    ghost predicate Valid()
      reads this
    {
      && corpus.Valid() && epochId >= -1 && (epochId >= 0 ==> corpus.shuffled)
      && samples == if epochId < 0 then corpus.origin else corpus.Epoch(epochId)
    }

    /** `shuffle` */
    method Shuffle(newEpochId: nat)
      requires Valid() && corpus.shuffled
      modifies this
      ensures Valid() && epochId == newEpochId && samples == corpus.Epoch(newEpochId)
      ensures |samples| == |corpus.origin|
      ensures forall i :: 0 <= i < |samples| ==> samples[i] == corpus.origin[corpus.permutation(newEpochId)[i]]
    {
      assert IsPermutation(corpus.permutation(newEpochId), |corpus.origin|);
      if epochId == newEpochId { return; }
      samples := Pick(corpus.origin, corpus.permutation(newEpochId));
      epochId := newEpochId;
    }
  }

  // ---------------------------------------------------------------- the source

  /** What `save` writes. */
  datatype Saved = Saved(sampleOffset: nat, epochId: nat, sampleGroupIndex: nat, sampleIndex: nat)

  /** Where a source stands: how many prompts of the stream it has served, and its next group and sample index. */
  datatype Counters = Counters(position: nat, group: nat, index: nat) {
    ghost function After(n: nat, perPrompt: nat): Counters {
      Counters(position + n, group + n, IndexOf(index, n, perPrompt))
    }
  }

  class RolloutDataSource {
    const dataset: Dataset
    const perPrompt: nat
    var epochId: nat
    var sampleGroupIndex: nat
    var sampleIndex: nat
    var sampleOffset: nat

    ghost predicate Valid()
      reads this, dataset
    {
      && dataset.Valid() && dataset.samples == dataset.corpus.Epoch(epochId)
      && sampleOffset <= |dataset.corpus.origin|
    }

    constructor (corpus: Corpus, perPrompt: nat)
      requires corpus.Valid()
      ensures Valid() && fresh(dataset) && dataset.corpus == corpus && this.perPrompt == perPrompt
      ensures State() == Saved(0, 0, 0, 0)
    {
      dataset := new Dataset(corpus);
      this.perPrompt := perPrompt;
      epochId, sampleGroupIndex, sampleIndex, sampleOffset := 0, 0, 0, 0;
      new;
      if corpus.shuffled { dataset.Shuffle(0); }
    }

    function State(): Saved
      reads this
    {
      Saved(sampleOffset, epochId, sampleGroupIndex, sampleIndex)
    }

    /** How many prompts were served since the start. */
    ghost function Position(): nat
      reads this, dataset
    {
      PositionOf(epochId, sampleOffset, |dataset.corpus.origin|)
    }

    /** Where the source stands. */
    ghost function Now(): Counters
      reads this, dataset
    {
      Counters(Position(), sampleGroupIndex, sampleIndex)
    }

    /** The next prompts; too few exactly when more than the rest of this epoch and the whole next one are asked for. */
    method NextPrompts(n: nat) returns (prompts: seq<Prompt>)
      requires Valid()
      modifies this`epochId, this`sampleOffset, dataset
      ensures |prompts| == Min(n, 2 * |dataset.corpus.origin| - old(sampleOffset))
      ensures |prompts| == n ==> Valid() && Position() == old(Position()) + n
      ensures prompts != [] ==> dataset.corpus.origin != []
      ensures Serves(dataset.corpus, 0, old(Position()), prompts)
    {
      if sampleOffset + n <= |dataset.samples| {
        prompts := SameEpoch(n);
      } else {
        prompts := BothEpochs(n);
      }
    }

    method BothEpochs(n: nat) returns (prompts: seq<Prompt>)
      requires Valid() && sampleOffset + n > |dataset.samples|
      modifies this`epochId, this`sampleOffset, dataset
      ensures |prompts| == Min(n, 2 * |dataset.corpus.origin| - old(sampleOffset))
      ensures |prompts| == n ==> Valid() && Position() == old(Position()) + n
      ensures prompts != [] ==> dataset.corpus.origin != []
      ensures Serves(dataset.corpus, 0, old(Position()), prompts)
    {
      ghost var e, o := epochId, sampleOffset;
      prompts := NextEpoch(n);
      NextEpochOfStream(dataset.corpus, e, o, Min(sampleOffset, |dataset.corpus.origin|), prompts);
    }

    method SameEpoch(n: nat) returns (prompts: seq<Prompt>)
      requires Valid() && sampleOffset + n <= |dataset.samples|
      modifies this`sampleOffset
      ensures |prompts| == n && Valid() && Position() == old(Position()) + n
      ensures prompts != [] ==> dataset.corpus.origin != []
      ensures Serves(dataset.corpus, 0, old(Position()), prompts)
    {
      prompts := dataset.samples[sampleOffset..sampleOffset + n];
      SliceOfStream(dataset.corpus, epochId, sampleOffset, prompts);
      sampleOffset := sampleOffset + n;
    }

    method StartEpoch()
      requires Valid()
      modifies this`epochId, dataset
      ensures epochId == old(epochId) + 1 && dataset.Valid() && dataset.samples == dataset.corpus.Epoch(epochId)
    {
      epochId := epochId + 1;
      if dataset.corpus.shuffled { dataset.Shuffle(epochId); }
    }

    method NextEpoch(n: nat) returns (prompts: seq<Prompt>)
      requires Valid() && sampleOffset + n > |dataset.samples|
      modifies this`epochId, this`sampleOffset, dataset
      ensures var c, e, o := dataset.corpus, old(epochId), old(sampleOffset);
        && dataset.Valid() && dataset.samples == c.Epoch(e + 1)
        && epochId == e + 1 && sampleOffset == n - (|c.origin| - o)
        && TwoEpochs(c, e, o, Min(sampleOffset, |c.origin|), prompts)
    {
      prompts := dataset.samples[sampleOffset..];
      var left := n - |prompts|;
      StartEpoch();
      prompts := prompts + dataset.samples[..Min(left, |dataset.samples|)];
      sampleOffset := left;
    }

    /** One prompt, copied for a group. */
    method CopyPrompt(prompt: Prompt) returns (group: seq<Item>)
      modifies this`sampleIndex, this`sampleGroupIndex
      ensures group == MakeGroup(prompt, old(sampleGroupIndex), old(sampleIndex), perPrompt)
      ensures sampleIndex == old(sampleIndex) + perPrompt && sampleGroupIndex == old(sampleGroupIndex) + 1
    {
      group := [];
      for i := 0 to perPrompt
        invariant sampleIndex == old(sampleIndex) + i && sampleGroupIndex == old(sampleGroupIndex)
        invariant group == MakeGroup(prompt, sampleGroupIndex, old(sampleIndex), i)
      {
        group := group + [Item(prompt, sampleGroupIndex, sampleIndex)];
        sampleIndex := sampleIndex + 1;
      }
      sampleGroupIndex := sampleGroupIndex + 1;
    }

    /** The loop over the prompts. */
    method CopyPrompts(prompts: seq<Prompt>) returns (groups: seq<seq<Item>>)
      modifies this`sampleIndex, this`sampleGroupIndex
      ensures Copied(groups, prompts, old(sampleGroupIndex), old(sampleIndex), perPrompt)
      ensures sampleGroupIndex == old(sampleGroupIndex) + |groups|
      ensures sampleIndex == IndexOf(old(sampleIndex), |groups|, perPrompt)
    {
      groups := [];
      for j := 0 to |prompts|
        invariant sampleGroupIndex == old(sampleGroupIndex) + j
        invariant sampleIndex == IndexOf(old(sampleIndex), j, perPrompt)
        invariant Copied(groups, prompts[..j], old(sampleGroupIndex), old(sampleIndex), perPrompt)
      {
        var group := CopyPrompt(prompts[j]);
        groups := groups + [group];
      }
      assert prompts[..|prompts|] == prompts;
    }

    /**
      `get_samples`: the next groups of the stream, as many as asked for unless that passes the end of the next epoch.
     */
    method GetSamples(n: nat) returns (groups: seq<seq<Item>>)
      requires Valid()
      modifies this`epochId, this`sampleOffset, this`sampleIndex, this`sampleGroupIndex, dataset
      ensures |groups| == Min(n, 2 * |dataset.corpus.origin| - old(sampleOffset))
      ensures groups != [] ==> dataset.corpus.origin != []
      ensures Labelled(dataset.corpus, groups, old(Now()), perPrompt)
      ensures |groups| == n ==> Valid() && Stretch(dataset.corpus, groups, perPrompt, old(Now()), Now())
    {
      ghost var at := Now();
      var prompts := NextPrompts(n);
      groups := CopyPrompts(prompts);
      CopiedIsLabelled(dataset.corpus, groups, prompts, at, perPrompt);
      assert Labelled(dataset.corpus, groups, at, perPrompt);
      assert |groups| == n ==> Now() == at.After(n, perPrompt);
    }

    /** `save` */
    method Save() returns (saved: Saved)
      ensures saved == State()
    {
      saved := Saved(sampleOffset, epochId, sampleGroupIndex, sampleIndex);
    }

    /** `load`; there may be nothing to load. */
    method Load(saved: Option<Saved>)
      requires Valid() && (saved.Some? ==> saved.value.sampleOffset <= |dataset.corpus.origin|)
      modifies this, dataset
      ensures Valid() && State() == if saved.Some? then saved.value else old(State())
    {
      if saved.None? { return; }
      sampleOffset, epochId := saved.value.sampleOffset, saved.value.epochId;
      sampleGroupIndex, sampleIndex := saved.value.sampleGroupIndex, saved.value.sampleIndex;
      if dataset.corpus.shuffled { dataset.Shuffle(epochId); }
    }
  }

  /** The index of the first sample of the `j`-th group from now. */
  ghost function IndexOf(first: nat, j: nat, perPrompt: nat): nat {
    if j == 0 then first else IndexOf(first, j - 1, perPrompt) + perPrompt
  }

  lemma {:induction false} IndexIsProduct(first: nat, j: nat, perPrompt: nat)
    ensures IndexOf(first, j, perPrompt) == first + j * perPrompt
  {
    if j > 0 {
      IndexIsProduct(first, j - 1, perPrompt);
      MulSucc(j - 1, perPrompt);
    }
  }

  lemma {:induction false} IndexAdd(first: nat, i: nat, j: nat, perPrompt: nat)
    ensures IndexOf(IndexOf(first, i, perPrompt), j, perPrompt) == IndexOf(first, i + j, perPrompt)
  {
    if j > 0 { IndexAdd(first, i, j - 1, perPrompt); }
  }

  /** Consecutive groups of the stream, with consecutive group and sample indices. */
  ghost predicate Labelled(c: Corpus, groups: seq<seq<Item>>, at: Counters, perPrompt: nat)
    requires c.Valid() && (groups != [] ==> c.origin != [])
  {
    forall j :: 0 <= j < |groups| ==>
      groups[j] == MakeGroup(c.StreamFrom(0, at.position + j), at.group + j, IndexOf(at.index, j, perPrompt), perPrompt)
  }

  ghost predicate Copied(groups: seq<seq<Item>>, prompts: seq<Prompt>, group: nat, first: nat, perPrompt: nat) {
    |groups| == |prompts| && forall j :: 0 <= j < |groups| ==>
      groups[j] == MakeGroup(prompts[j], group + j, IndexOf(first, j, perPrompt), perPrompt)
  }

  lemma {:induction false} CopiedIsLabelled(c: Corpus, groups: seq<seq<Item>>, prompts: seq<Prompt>, at: Counters,
                                            perPrompt: nat)
    requires c.Valid() && (prompts != [] ==> c.origin != []) && Serves(c, 0, at.position, prompts)
    requires Copied(groups, prompts, at.group, at.index, perPrompt)
    ensures Labelled(c, groups, at, perPrompt)
  {
  }

  lemma LabelledOn(c: Corpus, a: seq<seq<Item>>, b: seq<seq<Item>>, at: Counters, perPrompt: nat)
    requires c.Valid() && (a + b != [] ==> c.origin != []) && Labelled(c, a, at, perPrompt)
    requires Labelled(c, b, at.After(|a|, perPrompt), perPrompt)
    ensures Labelled(c, a + b, at, perPrompt)
  {
    forall j | 0 <= j < |a + b|
      ensures (a + b)[j]
          == MakeGroup(c.StreamFrom(0, at.position + j), at.group + j, IndexOf(at.index, j, perPrompt), perPrompt)
    {
      if j >= |a| {
        var i := j - |a|;
        assert b[i] == MakeGroup(c.StreamFrom(0, at.position + |a| + i), at.group + |a| + i,
                                 IndexOf(IndexOf(at.index, |a|, perPrompt), i, perPrompt), perPrompt);
        IndexAdd(at.index, |a|, i, perPrompt);
      }
    }
  }

  /** Two samples of a labelled stretch share an index only if they are the same one. */
  lemma IndicesUnique(c: Corpus, groups: seq<seq<Item>>, at: Counters, perPrompt: nat, i: nat, x: nat, j: nat, y: nat)
    requires c.Valid() && (groups != [] ==> c.origin != []) && Labelled(c, groups, at, perPrompt)
    requires i <= j < |groups| && x < perPrompt && y < perPrompt && groups[i][x].index == groups[j][y].index
    ensures i == j && x == y && groups[i][x].group == at.group + i
  {
    IndexIsProduct(at.index, i, perPrompt);
    IndexIsProduct(at.index, j, perPrompt);
    var a, b := i * perPrompt, j * perPrompt;
    assert groups[i][x].index == at.index + a + x && groups[j][y].index == at.index + b + y;
    MulStrict(i, j, perPrompt);
  }

  /** A stretch that was handed out, and where the source stands before and after it. */
  ghost predicate Stretch(c: Corpus, groups: seq<seq<Item>>, perPrompt: nat, before: Counters, after: Counters)
    requires c.Valid()
  {
    && (groups != [] ==> c.origin != []) && Labelled(c, groups, before, perPrompt)
    && after == before.After(|groups|, perPrompt)
  }

  lemma StretchOn(c: Corpus, a: seq<seq<Item>>, b: seq<seq<Item>>, perPrompt: nat, start: Counters, middle: Counters,
                  end: Counters)
    requires c.Valid() && Stretch(c, a, perPrompt, start, middle) && Stretch(c, b, perPrompt, middle, end)
    ensures Stretch(c, a + b, perPrompt, start, end)
  {
    LabelledOn(c, a, b, start, perPrompt);
    IndexAdd(start.index, |a|, |b|, perPrompt);
  }

  /** Any calls for no more than the data set each: consecutive slices of the infinite stream. */
  method Serve(source: RolloutDataSource, counts: seq<nat>) returns (groups: seq<seq<Item>>)
    requires source.Valid() && forall i :: 0 <= i < |counts| ==> counts[i] <= |source.dataset.corpus.origin|
    modifies source, source.dataset
    ensures source.Valid() && |groups| == Sum(counts)
    ensures Stretch(source.dataset.corpus, groups, source.perPrompt, old(source.Now()), source.Now())
  {
    ghost var c, start := source.dataset.corpus, source.Now();
    groups := [];
    for i := 0 to |counts|
      invariant source.Valid() && |groups| == Sum(counts[..i])
      invariant Stretch(c, groups, source.perPrompt, start, source.Now())
    {
      ghost var middle := source.Now();
      var more := source.GetSamples(counts[i]);
      StretchOn(c, groups, more, source.perPrompt, start, middle, source.Now());
      groups := groups + more;
      assert counts[..i + 1][..i] == counts[..i];
    }
    assert counts[..|counts|] == counts;
  }

  /** Saving, loading into a fresh source and going on hands out what the uninterrupted source hands out. */
  method SaveAndResume(source: RolloutDataSource, counts: seq<nat>)
    returns (uninterrupted: seq<seq<Item>>, resumed: seq<seq<Item>>)
    requires source.Valid() && forall i :: 0 <= i < |counts| ==> counts[i] <= |source.dataset.corpus.origin|
    modifies source, source.dataset
    ensures uninterrupted == resumed && |resumed| == Sum(counts)
  {
    var saved := source.Save();
    var again := new RolloutDataSource(source.dataset.corpus, source.perPrompt);
    again.Load(Some(saved));
    ghost var start := source.Now();
    uninterrupted := Serve(source, counts);
    resumed := Serve(again, counts);
  }

  const ONE_PROMPT := Corpus(["a"], false, _ => [0])

  /** The smallest short answer: three prompts of a data set with one, of which two are served. */
  method ServedShort() returns (prompts: seq<Prompt>)
    ensures prompts == ["a", "a"]
  {
    var source := new RolloutDataSource(ONE_PROMPT, 1);
    prompts := source.NextPrompts(3);
    assert ONE_PROMPT.StreamFrom(0, 0) == ONE_PROMPT.StreamFrom(0, 1) == "a";
  }

  // ---------------------------------------------------------------- the buffer

  /** The first `n` elements, or all. */
  function Take<T>(s: seq<T>, n: nat): seq<T> {
    s[..Min(|s|, n)]
  }

  function Drop<T>(s: seq<T>, n: nat): seq<T> {
    s[Min(|s|, n)..]
  }

  /** Whole groups that were handed out before group number `next`. */
  ghost predicate Older(groups: seq<seq<Item>>, next: nat, perPrompt: nat) {
    forall g: seq<Item> :: g in groups ==> |g| == perPrompt > 0 && g[0].group < next
  }

  /** What calls for `n` groups in all hand out: the buffer in order, and then the stream. */
  ghost predicate Handed(c: Corpus, perPrompt: nat, buffer: seq<seq<Item>>, before: Counters, n: nat,
                         groups: seq<seq<Item>>, buffer': seq<seq<Item>>, after: Counters)
    requires c.Valid()
  {
    var k := |Take(buffer, n)|;
    && |groups| == n && groups[..k] == Take(buffer, n) && buffer' == Drop(buffer, n)
    && Stretch(c, groups[k..], perPrompt, before, after)
  }

  /** `RolloutDataSourceWithBuffer`, with the filter that takes the oldest groups first. */
  class BufferedSource {
    const source: RolloutDataSource
    var buffer: seq<seq<Item>>

    constructor (source: RolloutDataSource)
      ensures this.source == source && buffer == []
    {
      this.source, buffer := source, [];
    }

    /** `pop_first` */
    method PopFirst(n: nat) returns (groups: seq<seq<Item>>)
      modifies this`buffer
      ensures groups == Take(old(buffer), n) && buffer == Drop(old(buffer), n)
    {
      var k := Min(|buffer|, n);
      groups := buffer[..k];
      buffer := buffer[k..];
    }

    /** `get_samples`: the oldest buffered groups first, and from the stream only what is then still missing. */
    method GetSamples(n: nat) returns (groups: seq<seq<Item>>)
      requires source.Valid()
      modifies this`buffer, source, source.dataset
      ensures Take(old(buffer), n) <= groups && buffer == Drop(old(buffer), n)
      ensures |groups| == n
          <==> old(source.sampleOffset) + n - |Take(old(buffer), n)| <= 2 * |source.dataset.corpus.origin|
      ensures n <= |source.dataset.corpus.origin| ==> |groups| == n
      ensures var rest := groups[|Take(old(buffer), n)|..];
        && (rest != [] ==> source.dataset.corpus.origin != [])
        && Labelled(source.dataset.corpus, rest, old(source.Now()), source.perPrompt)
      ensures |groups| == n ==>
        && source.Valid()
        && Handed(source.dataset.corpus, source.perPrompt, old(buffer), old(source.Now()), n, groups, buffer,
                  source.Now())
    {
      groups := [];
      if buffer != [] && n > 0 { groups := PopFirst(n); }
      ghost var popped := groups;
      var missing := n - |groups|;
      if missing == 0 {
        assert groups[|popped|..] == [];
        assert groups == Take(old(buffer), n) + [];
        return;
      }
      var more := source.GetSamples(missing);
      groups := groups + more;
      assert groups[|popped|..] == more;
      assert groups == Take(old(buffer), n) + more;
    }

    /** `add_samples`; `false` is the failing assertion on the size of a group. */
    method AddSamples(groups: seq<seq<Item>>) returns (ok: bool)
      modifies this`buffer
      ensures ok <==> forall j :: 0 <= j < |groups| ==> |groups[j]| == source.perPrompt
      ensures ok ==> buffer == old(buffer) + groups
    {
      for j := 0 to |groups|
        invariant buffer == old(buffer) + groups[..j]
        invariant forall i :: 0 <= i < j ==> |groups[i]| == source.perPrompt
      {
        if |groups[j]| != source.perPrompt { return false; }
        buffer := buffer + [groups[j]];
      }
      ok := true;
    }

    /** `save`, inherited: it writes the state of the stream alone. */
    method Save() returns (saved: Saved)
      ensures saved == source.State()
    {
      saved := source.Save();
    }

    /** `load`, inherited: the buffer stays as it is. */
    method Load(saved: Option<Saved>)
      requires source.Valid() && (saved.Some? ==> saved.value.sampleOffset <= |source.dataset.corpus.origin|)
      modifies source, source.dataset
      ensures source.Valid() && source.State() == if saved.Some? then saved.value else old(source.State())
    {
      source.Load(saved);
    }
  }

  /** The next elements of the stream from a position on. */
  ghost predicate Serves(c: Corpus, e: nat, from: nat, prompts: seq<Prompt>)
    requires c.Valid() && (prompts != [] ==> c.origin != [])
  {
    forall j :: 0 <= j < |prompts| ==> prompts[j] == c.StreamFrom(e, from + j)
  }

  lemma ServedSinceStart(c: Corpus, e: nat, o: nat, prompts: seq<Prompt>)
    requires c.Valid() && (prompts != [] ==> c.origin != []) && Serves(c, e, o, prompts)
    ensures Serves(c, 0, PositionOf(e, o, |c.origin|), prompts)
  {
    var start := PositionOf(e, o, |c.origin|);
    forall j | 0 <= j < |prompts| ensures prompts[j] == c.StreamFrom(0, start + j) {
      SkipEpochs(c, e, o + j);
      PositionAdd(e, o, j, |c.origin|);
    }
  }

  lemma SliceOfStream(c: Corpus, e: nat, o: nat, prompts: seq<Prompt>)
    requires c.Valid() && o + |prompts| <= |c.origin| && prompts == c.Epoch(e)[o..o + |prompts|]
    ensures PositionOf(e, o + |prompts|, |c.origin|) == PositionOf(e, o, |c.origin|) + |prompts|
    ensures Serves(c, 0, PositionOf(e, o, |c.origin|), prompts)
  {
    PositionAdd(e, o, |prompts|, |c.origin|);
    ServedSinceStart(c, e, o, prompts);
  }

  /** The rest of an epoch, and so many prompts of the next one. */
  ghost predicate TwoEpochs(c: Corpus, e: nat, o: nat, n: nat, prompts: seq<Prompt>) {
    c.Valid() && o <= |c.origin| && n <= |c.origin| && prompts == c.Epoch(e)[o..] + c.Epoch(e + 1)[..n]
  }

  lemma NextEpochOfStream(c: Corpus, e: nat, o: nat, n: nat, prompts: seq<Prompt>)
    requires TwoEpochs(c, e, o, n, prompts)
    ensures |prompts| == |c.origin| - o + n
    ensures PositionOf(e + 1, n, |c.origin|) == PositionOf(e, o, |c.origin|) + |prompts|
    ensures prompts != [] ==> c.origin != []
    ensures Serves(c, 0, PositionOf(e, o, |c.origin|), prompts)
  {
    var size := |c.origin|;
    assert PositionOf(e + 1, n, size) == PositionOf(e, size + n, size) == PositionOf(e, o + (size - o + n), size);
    PositionAdd(e, o, size - o + n, size);
    ServedSinceStart(c, e, o, prompts);
  }

  // ---------------------------------------------------------------- resuming a buffered source

  /** What is handed out counts as older from then on, so groups that were handed out may be given back. */
  lemma HandedIsOlder(c: Corpus, perPrompt: nat, buffer: seq<seq<Item>>, before: Counters, n: nat,
                      groups: seq<seq<Item>>, buffer': seq<seq<Item>>, after: Counters)
    requires c.Valid() && Handed(c, perPrompt, buffer, before, n, groups, buffer', after)
    requires perPrompt > 0 && Older(buffer, before.group, perPrompt)
    ensures Older(groups, after.group, perPrompt) && Older(buffer', after.group, perPrompt)
  {
    var k := |Take(buffer, n)|;
    forall g: seq<Item> | g in groups ensures |g| == perPrompt && g[0].group < after.group {
      var j :| 0 <= j < |groups| && groups[j] == g;
      if j < k {
        assert groups[j] == groups[..k][j] && buffer[j] in buffer;
      } else {
        assert groups[j] == groups[k..][j - k];
      }
    }
  }

  /** Two calls in a row hand out what one call for both hands out. */
  lemma HandedOn(c: Corpus, perPrompt: nat, buffer: seq<seq<Item>>, start: Counters, m: nat, a: seq<seq<Item>>,
                 buffer': seq<seq<Item>>, middle: Counters, n: nat, b: seq<seq<Item>>, buffer'': seq<seq<Item>>,
                 end: Counters)
    requires c.Valid() && Handed(c, perPrompt, buffer, start, m, a, buffer', middle)
    requires Handed(c, perPrompt, buffer', middle, n, b, buffer'', end)
    ensures Handed(c, perPrompt, buffer, start, m + n, a + b, buffer'', end)
  {
    var j, k := |Take(buffer, m)|, |Take(buffer', n)|;
    StretchOn(c, a[j..], b[k..], perPrompt, start, middle, end);
    TakeOn(buffer, m, a, n, b);
  }

  lemma {:induction false} TakeOn<T>(buffer: seq<T>, m: nat, a: seq<T>, n: nat, b: seq<T>)
    requires |a| == m && |b| == n
    requires a[..|Take(buffer, m)|] == Take(buffer, m) && b[..|Take(Drop(buffer, m), n)|] == Take(Drop(buffer, m), n)
    ensures Drop(Drop(buffer, m), n) == Drop(buffer, m + n)
    ensures var j, k, l := |Take(buffer, m)|, |Take(Drop(buffer, m), n)|, |Take(buffer, m + n)|;
      (a + b)[..l] == Take(buffer, m + n) && (a + b)[l..] == a[j..] + b[k..]
  {
    if |buffer| < m {
      assert Drop(buffer, m) == [];
      assert (a + b)[..|buffer|] == a[..|buffer|];
      assert (a + b)[|buffer|..] == a[|buffer|..] + b;
    } else {
      var k := |Take(Drop(buffer, m), n)|;
      assert a == a[..m] && a[m..] == [];
      assert (a + b)[..m + k] == a + b[..k] == buffer[..m] + buffer[m..][..k] == buffer[..m + k];
      assert (a + b)[m + k..] == b[k..] == a[m..] + b[k..];
    }
  }

  /** Any calls for no more than the data set each: the buffer in order, and then consecutive slices of the stream. */
  method ServeBuffered(b: BufferedSource, counts: seq<nat>) returns (groups: seq<seq<Item>>)
    requires b.source.Valid() && forall i :: 0 <= i < |counts| ==> counts[i] <= |b.source.dataset.corpus.origin|
    modifies b`buffer, b.source, b.source.dataset
    ensures b.source.Valid() && 0 <= Sum(counts)
    ensures Handed(b.source.dataset.corpus, b.source.perPrompt, old(b.buffer), old(b.source.Now()), Sum(counts),
                   groups, b.buffer, b.source.Now())
  {
    var source := b.source;
    ghost var c, start := source.dataset.corpus, source.Now();
    groups := [];
    for i := 0 to |counts|
      invariant source.Valid() && 0 <= Sum(counts[..i])
      invariant Handed(c, source.perPrompt, old(b.buffer), start, Sum(counts[..i]), groups, b.buffer, source.Now())
    {
      ghost var buffer, middle := b.buffer, source.Now();
      var more := b.GetSamples(counts[i]);
      HandedOn(c, source.perPrompt, old(b.buffer), start, Sum(counts[..i]), groups, buffer, middle, counts[i], more,
               b.buffer, source.Now());
      groups := groups + more;
      assert counts[..i + 1][..i] == counts[..i];
    }
    assert counts[..|counts|] == counts;
  }

  /**
    Saving, loading into a fresh source and going on.  The buffer is not saved: the resumed run hands out what the
    uninterrupted one does exactly if the buffer was empty, or nothing more is asked for.
   */
  method SaveAndResumeBuffered(b: BufferedSource, counts: seq<nat>)
    returns (uninterrupted: seq<seq<Item>>, resumed: seq<seq<Item>>)
    requires b.source.Valid() && forall i :: 0 <= i < |counts| ==> counts[i] <= |b.source.dataset.corpus.origin|
    requires Older(b.buffer, b.source.sampleGroupIndex, b.source.perPrompt)
    modifies b`buffer, b.source, b.source.dataset
    ensures |uninterrupted| == |resumed| == Sum(counts)
    ensures uninterrupted == resumed <==> old(b.buffer) == [] || Sum(counts) == 0
    ensures var c, perPrompt, start := b.source.dataset.corpus, b.source.perPrompt, old(b.source.Now());
      && Handed(c, perPrompt, old(b.buffer), start, Sum(counts), uninterrupted, b.buffer, b.source.Now())
      && Handed(c, perPrompt, [], start, Sum(counts), resumed, [], start.After(Sum(counts), perPrompt))
  {
    var saved := b.Save();
    var resumedSource := new RolloutDataSource(b.source.dataset.corpus, b.source.perPrompt);
    var again := new BufferedSource(resumedSource);
    again.Load(Some(saved));
    ghost var start, buffer := b.source.Now(), b.buffer;
    assert again.source.Now() == start;
    uninterrupted := ServeBuffered(b, counts);
    resumed := ServeBuffered(again, counts);
    ResumeDropsBuffer(b.source.dataset.corpus, b.source.perPrompt, buffer, start, Sum(counts), uninterrupted, b.buffer,
                      b.source.Now(), resumed, again.buffer, again.source.Now());
  }

  /** From the same place on, a source with older groups in its buffer and one with none differ. */
  lemma ResumeDropsBuffer(c: Corpus, perPrompt: nat, buffer: seq<seq<Item>>, start: Counters, n: nat,
                          groups: seq<seq<Item>>, buffer': seq<seq<Item>>, after: Counters, resumed: seq<seq<Item>>,
                          buffer'': seq<seq<Item>>, after': Counters)
    requires c.Valid() && Older(buffer, start.group, perPrompt)
    requires Handed(c, perPrompt, buffer, start, n, groups, buffer', after)
    requires Handed(c, perPrompt, [], start, n, resumed, buffer'', after')
    ensures groups == resumed <==> buffer == [] || n == 0
  {
    assert resumed[0..] == resumed;
    if buffer == [] {
      assert groups[0..] == groups;
    } else if n > 0 {
      assert groups[0] == groups[..|Take(buffer, n)|][0] && buffer[0] in buffer;
      assert resumed[0] == MakeGroup(c.StreamFrom(0, start.position), start.group, start.index, perPrompt);
    }
  }

  /** A source that has handed out its only prompt once. */
  method HandOut() returns (b: BufferedSource, groups: seq<seq<Item>>)
    ensures fresh(b) && fresh(b.source) && fresh(b.source.dataset)
    ensures b.source.Valid() && b.source.dataset.corpus == ONE_PROMPT && b.source.perPrompt == 1
    ensures b.buffer == [] && b.source.Now() == Counters(1, 1, 1) && groups == [[Item("a", 0, 0)]]
  {
    var source := new RolloutDataSource(ONE_PROMPT, 1);
    b := new BufferedSource(source);
    groups := b.GetSamples(1);
    NextGroup(ONE_PROMPT, Counters(0, 0, 0), groups, b.buffer, source.Now());
  }

  /** The smallest loss: the group that was given back is handed out again, but not after a resume. */
  method GroupLost() returns (uninterrupted: seq<seq<Item>>, resumed: seq<seq<Item>>)
    ensures uninterrupted == [[Item("a", 0, 0)]] && resumed == [[Item("a", 1, 1)]]
  {
    var b, groups := HandOut();
    var _ := b.AddSamples(groups);
    assert Sum([1]) == 1;
    uninterrupted, resumed := SaveAndResumeBuffered(b, [1]);
    NextGroup(ONE_PROMPT, Counters(1, 1, 1), resumed, [], Counters(1, 1, 1).After(1, 1));
    assert uninterrupted == uninterrupted[..1];
  }

  lemma {:induction false} NextGroup(c: Corpus, at: Counters, groups: seq<seq<Item>>, buffer': seq<seq<Item>>,
                                     after: Counters)
    requires c.origin == ["a"] && c.Valid() && !c.shuffled && at.position <= 1
    requires Handed(c, 1, [], at, 1, groups, buffer', after)
    ensures groups == [[Item("a", at.group, at.index)]] && buffer' == []
    ensures after == Counters(at.position + 1, at.group + 1, at.index + 1)
  {
    assert groups[0..] == groups;
    assert IndexOf(at.index, 1, 1) == IndexOf(at.index, 0, 1) + 1;
    assert c.StreamFrom(0, at.position) == "a";
    assert groups[0] == MakeGroup("a", at.group, at.index, 1) == [Item("a", at.group, at.index)];
  }
}
