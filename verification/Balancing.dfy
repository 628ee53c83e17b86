/**
  Sequence-length balancing (`miles/utils/seqlen_balancing.py`): k-way Karmarkar-Karp differencing
  on a heap of mutable states, and the biased greedy partitioner.
 */
module Balancing {
  import opened Arith
  import opened Options
  import opened Sequences

  datatype Item = Item(idx: nat, len: nat)

  /** The value of a `Set` object: its running sum and its items in order of arrival. */
  datatype Part = Part(sum: int, items: seq<Item>)

  function Lengths(items: seq<Item>): seq<int> {
    seq(|items|, i requires 0 <= i < |items| => items[i].len)
  }

  // ---------------------------------------------------------------- orders

  /** Lexicographic order of (index, length) lists. */
  predicate LexLess(a: seq<Item>, b: seq<Item>) {
    if a == [] then b != []
    else if b == [] then false
    else if a[0] != b[0] then a[0].idx < b[0].idx || (a[0].idx == b[0].idx && a[0].len < b[0].len)
    else LexLess(a[1..], b[1..])
  }

  /** Order of sets: by sum, then by number of items, then by the items. */
  predicate PartLess(a: Part, b: Part) {
    if a.sum != b.sum then a.sum < b.sum
    else if |a.items| != |b.items| then |a.items| < |b.items|
    else LexLess(a.items, b.items)
  }

  function Spread(parts: seq<Part>): int
    requires parts != []
  {
    parts[0].sum - parts[|parts| - 1].sum
  }

  /** Order of states: the larger spread first, then the larger leading set first. */
  predicate StateLess(a: seq<Part>, b: seq<Part>)
    requires a != [] && b != []
  {
    if Spread(a) != Spread(b) then Spread(a) > Spread(b) else PartLess(b[0], a[0])
  }

  lemma {:induction false} LexTransitive(a: seq<Item>, b: seq<Item>, c: seq<Item>)
    requires LexLess(a, b) && LexLess(b, c)
    ensures LexLess(a, c)
  {
    if a != [] && b != [] && c != [] && a[0] == b[0] && b[0] == c[0] {
      LexTransitive(a[1..], b[1..], c[1..]);
    }
  }

  lemma PartTransitive(a: Part, b: Part, c: Part)
    requires PartLess(a, b) && PartLess(b, c)
    ensures PartLess(a, c)
  {
    if a.sum == b.sum == c.sum && |a.items| == |b.items| == |c.items| {
      LexTransitive(a.items, b.items, c.items);
    }
  }

  ghost predicate Descending(parts: seq<Part>) {
    forall i, j :: 0 <= i < j < |parts| ==> !PartLess(parts[i], parts[j])
  }

  // ---------------------------------------------------------------- what one merge does

  /** Part i of one state joined with part k-1-i of the other, before sorting. */
  function Crossed(a: seq<Part>, b: seq<Part>): seq<Part>
    requires |a| == |b|
  {
    seq(|a|, i requires 0 <= i < |a| =>
      Part(a[i].sum + b[|b| - 1 - i].sum, a[i].items + b[|b| - 1 - i].items))
  }

  ghost predicate IsMerge(a: seq<Part>, b: seq<Part>, c: seq<Part>) {
    |a| == |b| == |c| && multiset(c) == multiset(Crossed(a, b)) && Descending(c)
  }

  lemma InCrossed(a: seq<Part>, b: seq<Part>, c: seq<Part>, i: nat) returns (j: nat)
    requires IsMerge(a, b, c) && i < |c|
    ensures j < |a| && c[i] == Crossed(a, b)[j]
  {
    assert c[i] in multiset(c);
    assert c[i] in Crossed(a, b);
    j :| 0 <= j < |a| && c[i] == Crossed(a, b)[j];
  }

  /** Differencing never increases the spread: a merged state is at most as wide as the wider input. */
  lemma SpreadNeverGrows(a: seq<Part>, b: seq<Part>, c: seq<Part>)
    requires a != [] && Descending(a) && Descending(b) && IsMerge(a, b, c)
    ensures Spread(c) <= Max(Spread(a), Spread(b))
  {
    var k := |a|;
    var i := InCrossed(a, b, c, 0);
    var j := InCrossed(a, b, c, k - 1);
    DescendingSums(a, i, j);
    DescendingSums(b, k - 1 - i, k - 1 - j);
  }

  lemma DescendingSums(a: seq<Part>, i: nat, j: nat)
    requires Descending(a) && i < |a| && j < |a|
    ensures i <= j ==> 0 <= a[i].sum - a[j].sum <= Spread(a)
    ensures j <= i ==> 0 <= a[j].sum - a[i].sum <= Spread(a)
  {
    forall x, y | 0 <= x <= y < |a| ensures a[x].sum >= a[y].sum {
      if x < y { assert !PartLess(a[x], a[y]); }
    }
  }

  function NonEmpty(p: Part): bool { p.items != [] }

  function NumNonEmpty(parts: seq<Part>): nat { Count(parts, NonEmpty) }

  /** Sums come from items of nonnegative length. */
  ghost predicate WellSummed(parts: seq<Part>) {
    forall i :: 0 <= i < |parts| ==> parts[i].sum == Sum(Lengths(parts[i].items))
  }

  lemma SumOfLengths(items: seq<Item>)
    ensures Sum(Lengths(items)) >= 0
  {
    var s := Lengths(items);
    if s != [] {
      SumOfLengths(items[..|items| - 1]);
      assert s[..|s| - 1] == Lengths(items[..|items| - 1]);
    }
  }

  lemma SumOfJoined(a: seq<Item>, b: seq<Item>)
    ensures Sum(Lengths(a + b)) == Sum(Lengths(a)) + Sum(Lengths(b))
  {
    assert Lengths(a + b) == Lengths(a) + Lengths(b);
    SumConcat(Lengths(a), Lengths(b));
  }

  lemma MergeWellSummed(a: seq<Part>, b: seq<Part>, c: seq<Part>)
    requires WellSummed(a) && WellSummed(b) && IsMerge(a, b, c)
    ensures WellSummed(c)
  {
    forall i | 0 <= i < |c| ensures c[i].sum == Sum(Lengths(c[i].items)) {
      var j := InCrossed(a, b, c, i);
      SumOfJoined(a[j].items, b[|b| - 1 - j].items);
    }
  }

  /** In a descending state the nonempty sets come first, zero-length items included. */
  lemma NonEmptyFirst(a: seq<Part>)
    requires Descending(a) && WellSummed(a)
    ensures forall i :: 0 <= i < |a| ==> (NonEmpty(a[i]) <==> i < NumNonEmpty(a))
  {
    forall i, j | 0 <= i < j < |a| && NonEmpty(a[j]) ensures NonEmpty(a[i]) {
      SumOfLengths(a[j].items);
      assert Sum(Lengths([])) == 0;
      assert !PartLess(a[i], a[j]);
    }
    var n := 0;
    while n < |a| && NonEmpty(a[n])
      invariant n <= |a| && forall i :: 0 <= i < n ==> NonEmpty(a[i])
    {
      n := n + 1;
    }
    CountPrefix(a, n, NonEmpty);
  }

  /** Merging states with x and y nonempty sets gives min(k, x + y) nonempty sets. */
  lemma NonEmptyAfterMerge(a: seq<Part>, b: seq<Part>, c: seq<Part>)
    requires Descending(a) && Descending(b) && WellSummed(a) && WellSummed(b) && IsMerge(a, b, c)
    ensures NumNonEmpty(c) == Min(|a|, NumNonEmpty(a) + NumNonEmpty(b))
  {
    NonEmptyFirst(a);
    NonEmptyFirst(b);
    CountPermutation(c, Crossed(a, b), NonEmpty);
    CountEnds(Crossed(a, b), NumNonEmpty(a), NumNonEmpty(b), NonEmpty);
  }

  /** Hits at the first x and at the last y positions, possibly overlapping. */
  lemma CountEnds<T>(s: seq<T>, x: nat, y: nat, p: T -> bool)
    requires x <= |s| && y <= |s|
    requires forall i :: 0 <= i < |s| ==> (p(s[i]) <==> i < x || |s| - 1 - i < y)
    ensures Count(s, p) == Min(|s|, x + y)
  {
    var low := Max(x, |s| - y);
    assert s == s[..low] + s[low..];
    CountConcat(s[..low], s[low..], p);
    CountPrefix(s[..low], x, p);
    CountPrefix(s[low..], |s| - low, p);
  }

  function Gather(parts: seq<Part>): multiset<Item> {
    if parts == [] then multiset{} else multiset(parts[0].items) + Gather(parts[1..])
  }

  lemma {:induction false} GatherConcat(a: seq<Part>, b: seq<Part>)
    ensures Gather(a + b) == Gather(a) + Gather(b)
  {
    if a == [] {
      assert a + b == b;
    } else {
      assert (a + b)[1..] == a[1..] + b;
      GatherConcat(a[1..], b);
    }
  }

  lemma GatherSingle(p: Part)
    ensures Gather([p]) == multiset(p.items)
  {
    assert [p][1..] == [];
  }

  lemma {:induction false} GatherRemove(s: seq<Part>, i: nat)
    requires i < |s|
    ensures Gather(s) == Gather(Remove(s, i)) + multiset(s[i].items)
  {
    RemoveTail(s, i);
    if i > 0 { GatherRemove(s[1..], i - 1); }
  }

  lemma {:induction false} GatherPermutation(s: seq<Part>, t: seq<Part>)
    requires multiset(s) == multiset(t)
    ensures Gather(s) == Gather(t)
  {
    if s == [] {
      assert |multiset(t)| == 0;
    } else {
      var j := FindFirst(s, t);
      GatherRemove(t, j);
      GatherPermutation(s[1..], Remove(t, j));
    }
  }

  lemma {:induction false} GatherCrossed(a: seq<Part>, b: seq<Part>)
    requires |a| == |b|
    ensures Gather(Crossed(a, b)) == Gather(a) + Gather(b)
  {
    if a != [] {
      var m := |b| - 1;
      assert Crossed(a, b)[1..] == Crossed(a[1..], b[..m]);
      GatherCrossed(a[1..], b[..m]);
      assert b == b[..m] + [b[m]];
      GatherConcat(b[..m], [b[m]]);
      GatherSingle(b[m]);
    }
  }

  /** No item is lost or duplicated by a merge. */
  lemma {:induction false} MergeKeepsItems(a: seq<Part>, b: seq<Part>, c: seq<Part>)
    requires IsMerge(a, b, c)
    ensures Gather(c) == Gather(a) + Gather(b)
  {
    GatherPermutation(c, Crossed(a, b));
    GatherCrossed(a, b);
  }

  ghost predicate UniformSize(parts: seq<Part>, size: nat) {
    forall i :: 0 <= i < |parts| ==> |parts[i].items| == size
  }

  lemma MergeKeepsUniform(a: seq<Part>, b: seq<Part>, c: seq<Part>, x: nat, y: nat)
    requires IsMerge(a, b, c) && UniformSize(a, x) && UniformSize(b, y)
    ensures UniformSize(c, x + y)
  {
    forall i | 0 <= i < |c| ensures |c[i].items| == x + y {
      var j := InCrossed(a, b, c, i);
    }
  }

  lemma {:induction false} GatherUniform(parts: seq<Part>, size: nat)
    requires UniformSize(parts, size)
    ensures |Gather(parts)| == |parts| * size
  {
    if parts != [] {
      GatherUniform(parts[1..], size);
      assert |parts| * size == (|parts| - 1) * size + size;
    }
  }

  // ---------------------------------------------------------------- the mutable objects

  /** `Set`: a running sum and a growing list of items. */
  class PartSet {
    var sum: int
    var items: seq<Item>

    constructor ()
      ensures View() == Part(0, [])
    {
      sum, items := 0, [];
    }

    function View(): Part
      reads this
    {
      Part(sum, items)
    }

    method Add(item: Item)
      modifies this
      ensures View() == Part(old(sum) + item.len, old(items) + [item])
    {
      items := items + [item];
      sum := sum + item.len;
    }

    method Merge(other: PartSet)
      requires other != this
      modifies this
      ensures View() == Part(old(sum) + Sum(Lengths(other.items)), old(items) + other.items)
    {
      for i := 0 to |other.items|
        invariant items == old(items) + other.items[..i]
        invariant sum == old(sum) + Sum(Lengths(other.items[..i]))
      {
        assert Lengths(other.items[..i + 1]) == Lengths(other.items[..i]) + [other.items[i].len];
        assert other.items[..i + 1] == other.items[..i] + [other.items[i]];
        items := items + [other.items[i]];
        sum := sum + other.items[i].len;
      }
      assert other.items[..|other.items|] == other.items;
    }
  }

  function Views(sets: seq<PartSet>): (v: seq<Part>)
    reads sets
    ensures |v| == |sets| && forall i :: 0 <= i < |sets| ==> v[i] == sets[i].View()
  {
    seq(|sets|, i requires 0 <= i < |sets| reads sets => sets[i].View())
  }

  ghost predicate Distinct<T>(s: seq<T>) {
    forall i, j :: 0 <= i < j < |s| ==> s[i] != s[j]
  }

  lemma ViewsInsert(r: seq<PartSet>, x: PartSet, p: nat)
    requires p <= |r|
    ensures Views(Insert(r, x, p)) == Insert(Views(r), x.View(), p)
  {
    var a, b := Views(Insert(r, x, p)), Insert(Views(r), x.View(), p);
    forall i | 0 <= i < |a| ensures a[i] == b[i] {}
  }

  /** One more set, in descending order. */
  ghost predicate PlacedIn(r: seq<PartSet>, x: PartSet, out: seq<PartSet>)
    reads r, x, out
  {
    && multiset(out) == multiset(r) + multiset{x}
    && multiset(Views(out)) == multiset(Views(r)) + multiset{x.View()} && Descending(Views(out))
  }

  method InsertSet(r: seq<PartSet>, x: PartSet) returns (out: seq<PartSet>)
    requires Descending(Views(r))
    ensures PlacedIn(r, x, out)
  {
    var p := 0;
    while p < |r| && !PartLess(r[p].View(), x.View())
      invariant p <= |r| && forall i :: 0 <= i < p ==> !PartLess(Views(r)[i], x.View())
    {
      p := p + 1;
    }
    out := Insert(r, x, p);
    InsertDescending(Views(r), x.View(), p);
    ViewsInsert(r, x, p);
    InsertMultiset(r, x, p);
    InsertMultiset(Views(r), x.View(), p);
  }

  lemma ViewsSnoc(sets: seq<PartSet>, n: nat)
    requires n < |sets|
    ensures multiset(sets[..n + 1]) == multiset(sets[..n]) + multiset{sets[n]}
    ensures multiset(Views(sets[..n + 1])) == multiset(Views(sets[..n])) + multiset{sets[n].View()}
  {
    assert sets[..n + 1] == sets[..n] + [sets[n]];
    assert Views(sets[..n + 1]) == Views(sets[..n]) + [sets[n].View()];
  }

  /** `sorted(sets, reverse=True)`: the same objects, no set before a larger one. */
  method SortedSets(sets: seq<PartSet>) returns (r: seq<PartSet>)
    ensures SameElements(sets, r)
    ensures multiset(Views(r)) == multiset(Views(sets)) && Descending(Views(r))
  {
    r := InsertAll(sets);
    SameObjects(sets, r);
  }

  method InsertAll(sets: seq<PartSet>) returns (r: seq<PartSet>)
    ensures SortedFrom(sets, r)
  {
    r := [];
    for n := 0 to |sets|
      invariant SortedFrom(sets[..n], r)
    {
      r := InsertNext(sets, n, r);
    }
    assert sets[..|sets|] == sets;
  }

  method InsertNext(sets: seq<PartSet>, n: nat, before: seq<PartSet>) returns (r: seq<PartSet>)
    requires n < |sets| && SortedFrom(sets[..n], before)
    ensures SortedFrom(sets[..n + 1], r)
  {
    r := InsertSet(before, sets[n]);
    SortedFromOn(sets, n, before, r);
  }

  ghost predicate SortedFrom(sets: seq<PartSet>, r: seq<PartSet>)
    reads sets, r
  {
    multiset(r) == multiset(sets) && multiset(Views(r)) == multiset(Views(sets)) && Descending(Views(r))
  }

  lemma SortedFromOn(sets: seq<PartSet>, n: nat, before: seq<PartSet>, r: seq<PartSet>)
    requires n < |sets| && SortedFrom(sets[..n], before) && PlacedIn(before, sets[n], r)
    ensures SortedFrom(sets[..n + 1], r)
  {
    ViewsSnoc(sets, n);
  }

  lemma InsertDescending(s: seq<Part>, x: Part, p: nat)
    requires Descending(s) && p <= |s|
    requires forall i :: 0 <= i < p ==> !PartLess(s[i], x)
    requires p < |s| ==> PartLess(s[p], x)
    ensures Descending(Insert(s, x, p))
  {
    forall i | p <= i < |s| ensures !PartLess(x, s[i]) {
      if PartLess(x, s[i]) {
        PartTransitive(s[p], x, s[i]);
        if i == p { PartIrreflexive(s[p]); }
      }
    }
  }

  lemma PartIrreflexive(a: Part)
    ensures !PartLess(a, a)
  {
    LexIrreflexive(a.items);
  }

  lemma LexIrreflexive(a: seq<Item>)
    ensures !LexLess(a, a)
  {
    if a != [] { LexIrreflexive(a[1..]); }
  }

  /** The parts a fresh state starts from: one item each, the remaining sets empty. */
  function InitialParts(items: seq<Item>, k: nat): seq<Part> {
    seq(k, i requires 0 <= i < k => if i < |items| then Part(items[i].len, [items[i]]) else Part(0, []))
  }

  /** `State`: k sets kept in descending order. */
  class State {
    const k: nat
    var sets: seq<PartSet>

    ghost predicate Valid()
      reads this, sets
    {
      && |sets| == k > 0
      && Distinct(sets)
      && Descending(Views(sets))
      && WellSummed(Views(sets))
    }

    constructor (items: seq<Item>, k: nat)
      requires k > 0 && |items| in {1, k}
      ensures Valid() && this.k == k
      ensures forall s :: s in sets ==> fresh(s)
      ensures multiset(Views(sets)) == multiset(InitialParts(items, k))
    {
      this.k := k;
      new;
      var made := MakeSets(items, k);
      sets := SortedSets(made);
      PermutedSums(Views(made), Views(sets));
    }

    method Merge(other: State)
      requires Valid() && other.Valid() && k == other.k
      requires Disjoint(sets, other.sets)
      modifies this`sets, sets
      ensures Valid() && SameElements(old(sets), sets)
      ensures IsMerge(old(Views(sets)), old(Views(other.sets)), Views(sets))
    {
      ghost var a, b := Views(sets), Views(other.sets);
      MergeSets(sets, other.sets);
      var sorted := SortedSets(sets);
      ghost var c := Views(sorted);
      MergeWellSummed(a, b, c);
      sets := sorted;
      assert Views(sets) == c;
    }
  }

  ghost predicate Disjoint(a: seq<PartSet>, b: seq<PartSet>) {
    forall s :: s in a ==> s !in b
  }

  /** The loop of `State.merge`: set i takes in the items of the other state's set k-1-i. */
  method MergeSets(sets: seq<PartSet>, others: seq<PartSet>)
    requires |sets| == |others| && Distinct(sets) && Disjoint(sets, others)
    requires WellSummed(Views(others))
    modifies sets
    ensures Views(sets) == Crossed(old(Views(sets)), old(Views(others)))
  {
    var k := |sets|;
    ghost var a, b := Views(sets), Views(others);
    forall i, j | 0 <= i < k && 0 <= j < k ensures sets[i] != others[j] {
      assert sets[i] in sets && others[j] in others;
    }
    for i := 0 to k
      invariant forall j :: 0 <= j < k ==> others[j].View() == b[j]
      invariant forall j :: 0 <= j < i ==> sets[j].View() == Joined(a[j], b[k - 1 - j])
      invariant forall j :: i <= j < k ==> sets[j].View() == a[j]
    {
      assert sets[i] in sets;
      sets[i].Merge(others[k - 1 - i]);
    }
    JoinedAreCrossed(a, b, Views(sets));
  }

  lemma JoinedAreCrossed(a: seq<Part>, b: seq<Part>, v: seq<Part>)
    requires |a| == |b| == |v| && WellSummed(b)
    requires forall j :: 0 <= j < |v| ==> v[j] == Joined(a[j], b[|b| - 1 - j])
    ensures v == Crossed(a, b)
  {
    forall j | 0 <= j < |v| ensures v[j] == Crossed(a, b)[j] {
      assert b[|b| - 1 - j].sum == Sum(Lengths(b[|b| - 1 - j].items));
    }
  }

  /** What `Set.merge` leaves in the first set. */
  ghost function Joined(p: Part, q: Part): Part {
    Part(p.sum + Sum(Lengths(q.items)), p.items + q.items)
  }

  ghost predicate SameElements<T>(a: seq<T>, b: seq<T>) {
    && |a| == |b| && multiset(a) == multiset(b)
    && (forall x :: x in a ==> x in b) && (forall x :: x in b ==> x in a)
    && (Distinct(a) ==> Distinct(b))
  }

  lemma SameObjects<T>(a: seq<T>, b: seq<T>)
    requires multiset(a) == multiset(b)
    ensures SameElements(a, b)
  {
    assert |a| == |multiset(a)| == |multiset(b)| == |b|;
    forall x | x in a ensures x in b { assert x in multiset(a); }
    forall x | x in b ensures x in a { assert x in multiset(b); }
    if Distinct(a) {
      forall i, j | 0 <= i < j < |b| ensures b[i] != b[j] {
        DistinctOnce(a, b[i]);
        if b[i] == b[j] { Twice(b, i, j); }
      }
    }
  }

  lemma {:induction false} DistinctOnce<T>(a: seq<T>, x: T)
    requires Distinct(a)
    ensures multiset(a)[x] <= 1
  {
    if a != [] {
      var n := |a| - 1;
      assert a == a[..n] + [a[n]];
      DistinctOnce(a[..n], x);
      if a[n] == x { assert x !in a[..n]; }
    }
  }

  lemma PermutedSums(a: seq<Part>, b: seq<Part>)
    requires multiset(a) == multiset(b) && WellSummed(a)
    ensures WellSummed(b)
  {
    forall i | 0 <= i < |b| ensures b[i].sum == Sum(Lengths(b[i].items)) {
      assert b[i] in multiset(b);
      assert b[i] in a;
    }
  }

  method MakeSets(items: seq<Item>, k: nat) returns (sets: seq<PartSet>)
    requires |items| <= k
    ensures |sets| == k && Distinct(sets) && forall s :: s in sets ==> fresh(s)
    ensures Views(sets) == InitialParts(items, k) && WellSummed(Views(sets))
  {
    sets := [];
    for i := 0 to k
      invariant |sets| == i && Distinct(sets) && forall s :: s in sets ==> fresh(s)
      invariant forall j :: 0 <= j < i ==> sets[j].View() == Part(0, [])
    {
      var s := new PartSet();
      sets := sets + [s];
    }
    for i := 0 to |items|
      invariant forall j :: 0 <= j < k ==>
        sets[j].View() == if j < i then Part(items[j].len, [items[j]]) else Part(0, [])
    {
      assert sets[i] in sets;
      sets[i].Add(items[i]);
    }
    assert Views(sets) == InitialParts(items, k);
    forall i | 0 <= i < k ensures Views(sets)[i].sum == Sum(Lengths(Views(sets)[i].items)) {
      if i < |items| {
        assert Lengths([items[i]]) == [] + [items[i].len];
      }
    }
  }

  // ---------------------------------------------------------------- the input in sorted order

  function Enumerate(seqlens: seq<nat>): seq<Item> {
    seq(|seqlens|, i requires 0 <= i < |seqlens| => Item(i, seqlens[i]))
  }

  predicate ItemLess(a: Item, b: Item) {
    a.len < b.len || (a.len == b.len && a.idx < b.idx)
  }

  ghost predicate Ascending(s: seq<Item>) {
    forall i, j :: 0 <= i < j < |s| ==> !ItemLess(s[j], s[i])
  }

  /** Number of leading items not above x. */
  function PositionFor(s: seq<Item>, x: Item): (p: nat)
    ensures p <= |s| && (p < |s| ==> ItemLess(x, s[p]))
    ensures forall i :: 0 <= i < p ==> !ItemLess(x, s[i])
  {
    if s == [] || ItemLess(x, s[0]) then 0 else 1 + PositionFor(s[1..], x)
  }

  function InsertItem(s: seq<Item>, x: Item): (r: seq<Item>)
    requires Ascending(s)
    ensures Ascending(r) && multiset(r) == multiset(s) + multiset{x} && |r| == |s| + 1
  {
    var p := PositionFor(s, x);
    InsertMultiset(s, x, p);
    InsertAscending(s, x, p);
    Insert(s, x, p)
  }

  lemma InsertAscending(s: seq<Item>, x: Item, p: nat)
    requires Ascending(s) && p <= |s| && (p < |s| ==> ItemLess(x, s[p]))
    requires forall i :: 0 <= i < p ==> !ItemLess(x, s[i])
    ensures Ascending(Insert(s, x, p))
  {
    forall i | p <= i < |s| ensures !ItemLess(s[i], x) {
      if i > p { assert !ItemLess(s[i], s[p]); }
    }
  }

  /** `sorted([(seqlen, i) ...])` */
  function SortItems(s: seq<Item>): (r: seq<Item>)
    ensures Ascending(r) && multiset(r) == multiset(s) && |r| == |s|
  {
    if s == [] then []
    else
      var n := |s| - 1;
      assert s == s[..n] + [s[n]];
      InsertItem(SortItems(s[..n]), s[n])
  }

  function MaxLen(s: seq<Item>): nat {
    if s == [] then 0 else Max(s[0].len, MaxLen(s[1..]))
  }

  lemma {:induction false} MaxLenBounds(s: seq<Item>, i: nat)
    requires i < |s|
    ensures s[i].len <= MaxLen(s)
  {
    if i > 0 { MaxLenBounds(s[1..], i - 1); }
  }

  /** Consecutive blocks of k items; an incomplete rest is not a block. */
  function Blocks(items: seq<Item>, k: nat): (blocks: seq<seq<Item>>)
    requires k > 0
    ensures forall b :: b in blocks ==> |b| == k
  {
    if |items| < k then [] else [items[..k]] + Blocks(items[k..], k)
  }

  /** The largest last-minus-first over blocks that are each in ascending order. */
  function WidestBlock(blocks: seq<seq<Item>>): nat {
    if blocks == [] then 0
    else
      var b := blocks[0];
      Max(if b == [] then 0 else b[|b| - 1].len - b[0].len, WidestBlock(blocks[1..]))
  }

  function BlockItems(blocks: seq<seq<Item>>): multiset<Item> {
    if blocks == [] then multiset{} else multiset(blocks[0]) + BlockItems(blocks[1..])
  }

  lemma {:induction false} WidestBounds(blocks: seq<seq<Item>>, i: nat)
    requires i < |blocks| && blocks[i] != []
    ensures blocks[i][|blocks[i]| - 1].len - blocks[i][0].len <= WidestBlock(blocks)
  {
    if i > 0 { WidestBounds(blocks[1..], i - 1); }
  }

  lemma {:induction false} BlockItemsSnoc(blocks: seq<seq<Item>>, b: seq<Item>)
    ensures BlockItems(blocks + [b]) == BlockItems(blocks) + multiset(b)
  {
    if blocks == [] {
      assert ([] + [b])[1..] == [];
    } else {
      BlockItemsSnoc(blocks[1..], b);
      assert (blocks + [b])[1..] == blocks[1..] + [b];
    }
  }

  lemma {:induction false} BlocksAscending(items: seq<Item>, k: nat)
    requires k > 0 && Ascending(items)
    ensures forall b :: b in Blocks(items, k) ==> Ascending(b)
  {
    if |items| >= k { BlocksAscending(items[k..], k); }
  }

  /** When k divides the length the blocks hold all items. */
  lemma {:induction false} BlocksCover(items: seq<Item>, k: nat)
    requires k > 0 && |items| % k == 0
    ensures BlockItems(Blocks(items, k)) == multiset(items)
    ensures Blocks(items, k) == [] <==> items == []
  {
    MultipleStep(|items|, k);
    if |items| >= k {
      BlocksCover(items[k..], k);
      assert items == items[..k] + items[k..];
    }
  }

  // ---------------------------------------------------------------- invariants of the heap contents

  ghost predicate Good(v: seq<Part>, k: nat, bound: int) {
    |v| == k > 0 && Descending(v) && WellSummed(v) && Spread(v) <= bound
  }

  function GatherAll(vs: seq<seq<Part>>): multiset<Item> {
    if vs == [] then multiset{} else GatherAll(vs[..|vs| - 1]) + Gather(vs[|vs| - 1])
  }

  function TotalNonEmpty(vs: seq<seq<Part>>): nat {
    if vs == [] then 0 else TotalNonEmpty(vs[..|vs| - 1]) + NumNonEmpty(vs[|vs| - 1])
  }

  lemma TotalsPush(vs: seq<seq<Part>>, v: seq<Part>)
    ensures GatherAll(vs + [v]) == GatherAll(vs) + Gather(v)
    ensures TotalNonEmpty(vs + [v]) == TotalNonEmpty(vs) + NumNonEmpty(v)
  {
    assert (vs + [v])[..|vs|] == vs;
  }

  lemma {:induction false} TotalsRemove(vs: seq<seq<Part>>, i: nat)
    requires i < |vs|
    ensures GatherAll(vs) == GatherAll(Remove(vs, i)) + Gather(vs[i])
    ensures TotalNonEmpty(vs) == TotalNonEmpty(Remove(vs, i)) + NumNonEmpty(vs[i])
  {
    var n := |vs| - 1;
    RemoveSnoc(vs, i);
    if i < n {
      TotalsRemove(vs[..n], i);
      TotalsPush(Remove(vs[..n], i), vs[n]);
    }
  }

  ghost predicate IsUniform(v: seq<Part>) {
    exists size :: UniformSize(v, size)
  }

  ghost predicate AllGood(vs: seq<seq<Part>>, k: nat, bound: int) {
    forall v :: v in vs ==> Good(v, k, bound)
  }

  ghost predicate AllUniform(vs: seq<seq<Part>>) {
    forall v :: v in vs ==> IsUniform(v)
  }

  ghost predicate Contents(vs: seq<seq<Part>>, k: nat, bound: int, items: multiset<Item>, n: nat, equalSize: bool) {
    && AllGood(vs, k, bound)
    && GatherAll(vs) == items
    && Min(k, TotalNonEmpty(vs)) == Min(k, n)
    && (equalSize ==> AllUniform(vs))
  }

  /** Totals after two states are taken out and their merge is put back. */
  lemma {:induction false} TotalsAfterMerge(vs: seq<seq<Part>>, i: nat, j: nat, c: seq<Part>)
    requires i < |vs| && j < |vs| - 1
    ensures GatherAll(Remove(Remove(vs, i), j) + [c]) + Gather(vs[i]) + Gather(Remove(vs, i)[j])
         == GatherAll(vs) + Gather(c)
    ensures TotalNonEmpty(Remove(Remove(vs, i), j) + [c]) + NumNonEmpty(vs[i]) + NumNonEmpty(Remove(vs, i)[j])
         == TotalNonEmpty(vs) + NumNonEmpty(c)
  {
    var rest := Remove(vs, i);
    TotalsRemove(vs, i);
    TotalsRemove(rest, j);
    TotalsPush(Remove(rest, j), c);
  }

  lemma MembersAfterMerge<T>(vs: seq<T>, i: nat, j: nat, c: T)
    requires i < |vs| && j < |vs| - 1
    ensures vs[i] in vs && Remove(vs, i)[j] in vs
    ensures forall v :: v in Remove(Remove(vs, i), j) + [c] ==> v in vs || v == c
  {
  }

  lemma AllGoodAfterMerge(vs: seq<seq<Part>>, i: nat, j: nat, c: seq<Part>, k: nat, bound: int)
    requires i < |vs| && j < |vs| - 1 && AllGood(vs, k, bound) && IsMerge(vs[i], Remove(vs, i)[j], c)
    ensures AllGood(Remove(Remove(vs, i), j) + [c], k, bound)
  {
    var a, b := vs[i], Remove(vs, i)[j];
    MembersAfterMerge(vs, i, j, c);
    assert Good(a, k, bound) && Good(b, k, bound);
    SpreadNeverGrows(a, b, c);
    MergeWellSummed(a, b, c);
    assert Good(c, k, bound);
  }

  lemma AllUniformAfterMerge(vs: seq<seq<Part>>, i: nat, j: nat, c: seq<Part>)
    requires i < |vs| && j < |vs| - 1 && AllUniform(vs) && IsMerge(vs[i], Remove(vs, i)[j], c)
    ensures AllUniform(Remove(Remove(vs, i), j) + [c])
  {
    var a, b := vs[i], Remove(vs, i)[j];
    MembersAfterMerge(vs, i, j, c);
    var x :| UniformSize(a, x);
    var y :| UniformSize(b, y);
    MergeKeepsUniform(a, b, c, x, y);
    assert IsUniform(c);
  }

  lemma {:induction false} NonEmptyTotalAfterMerge(vs: seq<seq<Part>>, i: nat, j: nat, c: seq<Part>, k: nat, bound: int)
    requires i < |vs| && j < |vs| - 1 && AllGood(vs, k, bound) && IsMerge(vs[i], Remove(vs, i)[j], c)
    ensures Min(k, TotalNonEmpty(Remove(Remove(vs, i), j) + [c])) == Min(k, TotalNonEmpty(vs))
  {
    var a, b := vs[i], Remove(vs, i)[j];
    MembersAfterMerge(vs, i, j, c);
    assert Good(a, k, bound) && Good(b, k, bound);
    NonEmptyAfterMerge(a, b, c);
    TotalsAfterMerge(vs, i, j, c);
  }

  lemma {:induction false} ItemsAfterMerge(vs: seq<seq<Part>>, i: nat, j: nat, c: seq<Part>)
    requires i < |vs| && j < |vs| - 1 && IsMerge(vs[i], Remove(vs, i)[j], c)
    ensures GatherAll(Remove(Remove(vs, i), j) + [c]) == GatherAll(vs)
  {
    MergeKeepsItems(vs[i], Remove(vs, i)[j], c);
    TotalsAfterMerge(vs, i, j, c);
    Cancel(GatherAll(Remove(Remove(vs, i), j) + [c]), GatherAll(vs), Gather(vs[i]), Gather(Remove(vs, i)[j]));
  }

  /** Replacing any two states by their merge keeps everything the final answer needs. */
  lemma MergeKeepsContents(vs: seq<seq<Part>>, i: nat, j: nat, c: seq<Part>, k: nat, bound: int,
                           items: multiset<Item>, n: nat, equalSize: bool)
    requires i < |vs| && j < |vs| - 1
    requires Contents(vs, k, bound, items, n, equalSize)
    requires IsMerge(vs[i], Remove(vs, i)[j], c)
    ensures Contents(Remove(Remove(vs, i), j) + [c], k, bound, items, n, equalSize)
  {
    AllGoodAfterMerge(vs, i, j, c, k, bound);
    NonEmptyTotalAfterMerge(vs, i, j, c, k, bound);
    ItemsAfterMerge(vs, i, j, c);
    if equalSize { AllUniformAfterMerge(vs, i, j, c); }
  }

  lemma Cancel(x: multiset<Item>, y: multiset<Item>, a: multiset<Item>, b: multiset<Item>)
    requires x + a + b == y + (a + b)
    ensures x == y
  {
    forall e ensures x[e] == y[e] {
      assert (x + a + b)[e] == (y + (a + b))[e];
    }
  }

  /** First and last set of a state are sets of any permutation of it. */
  lemma SpreadWithin(v: seq<Part>, w: seq<Part>, lo: int, hi: int)
    requires v != [] && multiset(v) == multiset(w)
    requires forall i :: 0 <= i < |w| ==> lo <= w[i].sum <= hi
    ensures |v| == |w| && Spread(v) <= hi - lo
  {
    SameObjects(v, w);
    assert v[0] in w && v[|v| - 1] in w;
  }

  /** A state holding a single item. */
  lemma SingleItemState(v: seq<Part>, item: Item, k: nat)
    requires k > 0 && multiset(v) == multiset(InitialParts([item], k)) && Descending(v) && WellSummed(v)
    ensures Good(v, k, item.len) && NumNonEmpty(v) == 1 && Gather(v) == multiset{item}
  {
    var w := InitialParts([item], k);
    SameObjects(v, w);
    SpreadWithin(v, w, 0, item.len);
    CountPermutation(v, w, NonEmpty);
    CountPrefix(w, 1, NonEmpty);
    GatherPermutation(v, w);
    GatherEmpty(w[1..]);
  }

  lemma {:induction false} GatherEmpty(w: seq<Part>)
    requires forall i :: 0 <= i < |w| ==> w[i].items == []
    ensures Gather(w) == multiset{}
  {
    if w != [] { GatherEmpty(w[1..]); }
  }

  lemma {:induction false} GatherSingletons(items: seq<Item>, w: seq<Part>)
    requires |w| == |items| && forall i :: 0 <= i < |w| ==> w[i].items == [items[i]]
    ensures Gather(w) == multiset(items)
  {
    if w != [] {
      GatherSingletons(items[1..], w[1..]);
      assert items == [items[0]] + items[1..];
    }
  }

  /** A state holding one item in each of its k sets. */
  lemma BlockState(v: seq<Part>, items: seq<Item>)
    requires items != [] && Ascending(items)
    requires multiset(v) == multiset(InitialParts(items, |items|)) && Descending(v) && WellSummed(v)
    ensures Good(v, |items|, items[|items| - 1].len - items[0].len)
    ensures NumNonEmpty(v) == |items| && Gather(v) == multiset(items) && UniformSize(v, 1)
  {
    var k := |items|;
    var w := InitialParts(items, k);
    AscendingBounds(items);
    SpreadWithin(v, w, items[0].len, items[k - 1].len);
    CountPermutation(v, w, NonEmpty);
    CountPrefix(w, k, NonEmpty);
    GatherPermutation(v, w);
    GatherSingletons(items, w);
    UniformPermutation(v, w, 1);
  }

  lemma AscendingBounds(items: seq<Item>)
    requires Ascending(items)
    ensures forall i :: 0 <= i < |items| ==> items[0].len <= items[i].len <= items[|items| - 1].len
  {
    forall i | 0 <= i < |items| ensures items[0].len <= items[i].len <= items[|items| - 1].len {
      if i > 0 { assert !ItemLess(items[i], items[0]); }
      if i < |items| - 1 { assert !ItemLess(items[|items| - 1], items[i]); }
    }
  }

  lemma UniformPermutation(v: seq<Part>, w: seq<Part>, size: nat)
    requires multiset(v) == multiset(w) && UniformSize(w, size)
    ensures UniformSize(v, size)
  {
    forall i | 0 <= i < |v| ensures |v[i].items| == size {
      assert v[i] in multiset(v);
      assert v[i] in w;
    }
  }

  // ---------------------------------------------------------------- Karmarkar-Karp

  ghost function SetObjects(pq: seq<State>): (objects: set<PartSet>)
    reads pq
    ensures forall i, s :: 0 <= i < |pq| && s in pq[i].sets ==> s in objects
    ensures forall s :: s in objects ==> exists i :: 0 <= i < |pq| && s in pq[i].sets
  {
    if pq == [] then {}
    else
      var last := pq[|pq| - 1].sets;
      SetObjects(pq[..|pq| - 1]) + set s | s in last
  }

  /** The heap's states are valid, share no set object, and have the given values. */
  ghost predicate Heap(pq: seq<State>, vs: seq<seq<Part>>, k: nat)
    reads pq, SetObjects(pq)
  {
    && |pq| == |vs| && Distinct(pq)
    && (forall i :: 0 <= i < |pq| ==> StateHas(pq[i], vs[i], k))
    && forall i, j :: 0 <= i < j < |pq| ==> Disjoint(pq[i].sets, pq[j].sets)
  }

  ghost predicate StateHas(st: State, v: seq<Part>, k: nat)
    reads st, st.sets
  {
    st.Valid() && st.k == k && Views(st.sets) == v
  }

  // ---------------------------------------------------------------- which states are merged

  /** At the first difference `a` has the smaller entry, or `a` ends there and `b` does not. */
  ghost predicate FirstSmaller(a: seq<Item>, b: seq<Item>) {
    exists n: nat :: n <= |a| && n <= |b| && a[..n] == b[..n] && SmallerFrom(a, b, n)
  }

  ghost predicate SmallerFrom(a: seq<Item>, b: seq<Item>, n: nat)
    requires n <= |a| && n <= |b|
  {
    if n == |a| || n == |b| then |a| < |b|
    else a[n].idx < b[n].idx || (a[n].idx == b[n].idx && a[n].len < b[n].len)
  }

  lemma SharedHead(a: seq<Item>, b: seq<Item>, n: nat)
    requires n <= |a| && n <= |b| && a[..n] == b[..n]
    ensures n == 0 || a[0] == b[0]
  {
    if n > 0 { assert a[0] == a[..n][0] == b[..n][0] == b[0]; }
  }

  lemma {:induction false} LexIsFirstSmaller(a: seq<Item>, b: seq<Item>)
    ensures LexLess(a, b) <==> FirstSmaller(a, b)
  {
    if a == [] || b == [] || a[0] != b[0] {
      assert a[..0] == b[..0];
      if LexLess(a, b) { assert SmallerFrom(a, b, 0); }
      if FirstSmaller(a, b) {
        var n: nat :| n <= |a| && n <= |b| && a[..n] == b[..n] && SmallerFrom(a, b, n);
        SharedHead(a, b, n);
      }
    } else {
      var x, y := a[1..], b[1..];
      LexIsFirstSmaller(x, y);
      if FirstSmaller(x, y) {
        var n: nat :| n <= |x| && n <= |y| && x[..n] == y[..n] && SmallerFrom(x, y, n);
        assert a[..n + 1] == [a[0]] + x[..n] && b[..n + 1] == [b[0]] + y[..n];
        assert SmallerFrom(a, b, n + 1);
      }
      if FirstSmaller(a, b) {
        var n: nat :| n <= |a| && n <= |b| && a[..n] == b[..n] && SmallerFrom(a, b, n);
        assert n > 0;
        assert x[..n - 1] == a[..n][1..] && y[..n - 1] == b[..n][1..];
        assert SmallerFrom(x, y, n - 1);
      }
    }
  }

  /** A smaller sum, at equal sums fewer items, and else the smaller list. */
  ghost predicate SmallerSet(p: Part, q: Part) {
    || p.sum < q.sum
    || (p.sum == q.sum && |p.items| < |q.items|)
    || (p.sum == q.sum && |p.items| == |q.items| && FirstSmaller(p.items, q.items))
  }

  /** What the order of sets means. */
  lemma {:induction false} PartOrder(p: Part, q: Part)
    ensures PartLess(p, q) <==> SmallerSet(p, q)
  {
    LexIsFirstSmaller(p.items, q.items);
  }

  /** `a` leaves the heap no later than `b`: its outer sums are further apart, or as far and its first set no less. */
  ghost predicate NoLater(a: seq<Part>, b: seq<Part>)
    requires a != [] && b != []
  {
    var gapA, gapB := a[0].sum - a[|a| - 1].sum, b[0].sum - b[|b| - 1].sum;
    gapA > gapB || (gapA == gapB && !SmallerSet(a[0], b[0]))
  }

  /** What the order of states means. */
  lemma {:induction false} StateOrder(a: seq<Part>, b: seq<Part>)
    requires a != [] && b != []
    ensures StateLess(b, a) <==> !NoLater(a, b)
  {
    PartOrder(a[0], b[0]);
  }

  /** So no two sets of a state that leaves later are further apart, and at equal distance none has a larger sum. */
  lemma {:induction false} LargestSpreadFirst(a: seq<Part>, b: seq<Part>, i: nat, j: nat)
    requires a != [] && b != [] && Descending(a) && Descending(b) && NoLater(a, b) && i < |b| && j < |b|
    ensures b[i].sum - b[j].sum <= a[0].sum - a[|a| - 1].sum
    ensures b[i].sum - b[j].sum == a[0].sum - a[|a| - 1].sum ==> b[i].sum <= a[0].sum
  {
    DescendingSums(b, i, j);
    DescendingSums(b, 0, i);
    DescendingSums(b, j, |b| - 1);
  }

  /** This state leaves the heap first. */
  ghost predicate First(vs: seq<seq<Part>>, at: nat) {
    && at < |vs| && (forall j :: 0 <= j < |vs| ==> vs[j] != [])
    && forall j :: 0 <= j < |vs| ==> NoLater(vs[at], vs[j])
  }

  /** One round: the first two states to leave the heap, and a merge of the second into the first. */
  ghost predicate Picks(vs: seq<seq<Part>>, i: nat, j: nat, c: seq<Part>) {
    && i < |vs| && j < |vs| - 1 && First(vs, i) && First(Remove(vs, i), j)
    && IsMerge(vs[i], Remove(vs, i)[j], c)
  }

  /** Rounds, one after another, turn these states into the one that is left. */
  ghost predicate Reduces(vs: seq<seq<Part>>, v: seq<Part>)
    decreases |vs|
  {
    if |vs| <= 1 then vs == [v]
    else exists i: nat, j: nat, c | Picks(vs, i, j, c) :: Reduces(Remove(Remove(vs, i), j) + [c], v)
  }

  /** The items in ascending order of length, and of index for equal lengths. */
  ghost predicate InOrder(seqlens: seq<nat>, items: seq<Item>) {
    && multiset(items) == multiset(Enumerate(seqlens))
    && forall i, j :: 0 <= i < j < |items| ==>
         items[i].len < items[j].len || (items[i].len == items[j].len && items[i].idx < items[j].idx)
  }

  /** The states before the first round: one for every item, or one for every k items in order. */
  ghost predicate Starts(items: seq<Item>, k: nat, equalSize: bool, vs: seq<seq<Part>>)
    requires k > 0
  {
    if equalSize then |vs| * k == |items| && forall b: nat :: b < |vs| ==> StartsBlock(items, k, b, vs[b])
    else |vs| == |items| && forall n :: 0 <= n < |items| ==> Fresh(vs[n], [items[n]], k)
  }

  ghost predicate StartsBlock(items: seq<Item>, k: nat, b: nat, v: seq<Part>) {
    0 <= b * k && b * k + k <= |items| && Fresh(v, items[b * k..b * k + k], k)
  }

  /** The parts are what differencing makes of the lengths, always merging the two states with the largest spreads. */
  ghost predicate Differenced(seqlens: seq<nat>, k: nat, equalSize: bool, ps: seq<seq<nat>>)
    requires k > 0
  {
    exists items, vs, v | InOrder(seqlens, items) && Starts(items, k, equalSize, vs) && Reduces(vs, v) ::
      ps == IndexLists(v) && SumsAre(seqlens, ps, v)
  }

  ghost predicate SumsAre(seqlens: seq<nat>, ps: seq<seq<nat>>, v: seq<Part>) {
    |ps| == |v| && forall i :: 0 <= i < |v| ==> Load(seqlens, ps[i]) == v[i].sum
  }

  method LeastState(pq: seq<State>, ghost vs: seq<seq<Part>>, k: nat) returns (best: nat)
    requires pq != [] && k > 0 && Heap(pq, vs, k)
    ensures NoneBefore(vs, |vs|, best)
  {
    best := 0;
    StateIrreflexive(vs[0]);
    for i := 1 to |pq|
      invariant best < |pq| && NoneBefore(vs, i, best)
    {
      assert StateHas(pq[i], vs[i], k) && StateHas(pq[best], vs[best], k);
      if StateLess(Views(pq[i].sets), Views(pq[best].sets)) {
        NewLeast(vs, i, best);
        best := i;
      }
    }
  }

  ghost predicate NoneBefore(vs: seq<seq<Part>>, n: nat, best: nat) {
    && n <= |vs| && best < |vs| && (forall j :: 0 <= j < |vs| ==> vs[j] != [])
    && forall j :: 0 <= j < n ==> !StateLess(vs[j], vs[best])
  }

  lemma NoneBeforeIsFirst(vs: seq<seq<Part>>, best: nat)
    requires NoneBefore(vs, |vs|, best)
    ensures First(vs, best)
  {
    forall j | 0 <= j < |vs| ensures NoLater(vs[best], vs[j]) { StateOrder(vs[best], vs[j]); }
  }

  lemma NewLeast(vs: seq<seq<Part>>, n: nat, best: nat)
    requires n < |vs| && NoneBefore(vs, n, best) && StateLess(vs[n], vs[best])
    ensures NoneBefore(vs, n + 1, n)
  {
    StateIrreflexive(vs[n]);
    forall j | 0 <= j < n ensures !StateLess(vs[j], vs[n]) {
      if StateLess(vs[j], vs[n]) { StateTransitive(vs[j], vs[n], vs[best]); }
    }
  }

  /** `heappop`: takes out a state that no other state precedes. */
  method PopLeast(pq: seq<State>, ghost vs: seq<seq<Part>>, k: nat)
    returns (top: State, rest: seq<State>, at: nat)
    requires pq != [] && k > 0 && Heap(pq, vs, k)
    ensures at < |pq| && top == pq[at] && rest == Remove(pq, at)
    ensures NoneBefore(vs, |vs|, at) && First(vs, at)
  {
    var best := LeastState(pq, vs, k);
    NoneBeforeIsFirst(vs, best);
    top, rest, at := pq[best], Remove(pq, best), best;
  }

  lemma HeapRemove(pq: seq<State>, vs: seq<seq<Part>>, k: nat, at: nat)
    requires Heap(pq, vs, k) && at < |pq|
    ensures Heap(Remove(pq, at), Remove(vs, at), k)
    ensures pq[at] !in Remove(pq, at)
    ensures forall st :: st in Remove(pq, at) ==> Disjoint(pq[at].sets, st.sets) && Disjoint(st.sets, pq[at].sets)
  {
    var rest := Remove(pq, at);
    forall i | 0 <= i < |rest|
      ensures rest[i] == pq[if i < at then i else i + 1]
    {}
  }

  lemma StateIrreflexive(a: seq<Part>)
    requires a != []
    ensures !StateLess(a, a)
  {
    PartIrreflexive(a[0]);
  }

  lemma StateTransitive(a: seq<Part>, b: seq<Part>, c: seq<Part>)
    requires a != [] && b != [] && c != []
    requires StateLess(a, b) && StateLess(b, c)
    ensures StateLess(a, c)
  {
    if Spread(a) == Spread(b) == Spread(c) { PartTransitive(c[0], b[0], a[0]); }
  }

  lemma HeapPush(rest: seq<State>, vs: seq<seq<Part>>, k: nat, st: State, v: seq<Part>)
    requires Heap(rest, vs, k) && StateHas(st, v, k) && st !in rest
    requires forall other :: other in rest ==> Disjoint(other.sets, st.sets)
    ensures Heap(rest + [st], vs + [v], k)
  {
  }

  /** Merging two popped states and pushing the first leaves the rest of the heap alone. */
  method MergeAndPush(state0: State, state1: State, rest: seq<State>, ghost vs: seq<seq<Part>>, k: nat,
                      ghost a: seq<Part>, ghost b: seq<Part>)
    returns (pq': seq<State>, ghost c: seq<Part>)
    requires StateHas(state0, a, k) && StateHas(state1, b, k) && Heap(rest, vs, k)
    requires state0 !in rest && Disjoint(state0.sets, state1.sets)
    requires forall st :: st in rest ==> Disjoint(state0.sets, st.sets) && Disjoint(st.sets, state0.sets)
    modifies state0, state0.sets
    ensures pq' == rest + [state0] && IsMerge(a, b, c) && Heap(pq', vs + [c], k)
    ensures forall s :: s in state0.sets <==> s in old(state0.sets)
  {
    assert SetObjects(rest) !! (set s | s in state0.sets);
    state0.Merge(state1);
    assert Heap(rest, vs, k);
    c := Views(state0.sets);
    HeapPush(rest, vs, k, state0, c);
    pq' := rest + [state0];
  }

  /** All objects of the heap belong to a fixed footprint. */
  ghost predicate Within(pq: seq<State>, states: set<State>, sets: set<PartSet>)
    reads pq
  {
    && (forall i :: 0 <= i < |pq| ==> pq[i] in states)
    && forall i, s :: 0 <= i < |pq| && s in pq[i].sets ==> s in sets
  }

  lemma {:induction false} HeapRemoveTwo(pq: seq<State>, vs: seq<seq<Part>>, k: nat, i: nat, j: nat)
    requires Heap(pq, vs, k) && i < |pq| && j < |pq| - 1
    ensures Heap(Remove(Remove(pq, i), j), Remove(Remove(vs, i), j), k)
    ensures Disjoint(pq[i].sets, Remove(pq, i)[j].sets)
    ensures pq[i] !in Remove(Remove(pq, i), j)
    ensures forall st :: st in Remove(Remove(pq, i), j) ==>
        Disjoint(pq[i].sets, st.sets) && Disjoint(st.sets, pq[i].sets)
  {
    var rest0 := Remove(pq, i);
    HeapRemove(pq, vs, k, i);
    HeapRemove(rest0, Remove(vs, i), k, j);
    assert rest0[j] in rest0;
    assert forall st :: st in Remove(rest0, j) ==> st in rest0;
  }

  /** The two pops of a round. */
  method PopTwo(pq: seq<State>, ghost vs: seq<seq<Part>>, k: nat)
    returns (state0: State, state1: State, rest: seq<State>, i: nat, j: nat)
    requires |pq| > 1 && k > 0 && Heap(pq, vs, k)
    ensures i < |pq| && j < |pq| - 1
    ensures state0 == pq[i] && state1 == Remove(pq, i)[j] && rest == Remove(Remove(pq, i), j)
    ensures StateHas(state0, vs[i], k) && StateHas(state1, Remove(vs, i)[j], k)
    ensures First(vs, i) && First(Remove(vs, i), j)
  {
    var rest0;
    state0, rest0, i := PopLeast(pq, vs, k);
    HeapRemove(pq, vs, k, i);
    state1, rest, j := PopLeast(rest0, Remove(vs, i), k);
  }

  lemma WithinAfterRound(pq: seq<State>, i: nat, j: nat, states: set<State>, sets: set<PartSet>)
    requires i < |pq| && j < |pq| - 1 && Within(pq, states, sets)
    ensures Within(Remove(Remove(pq, i), j) + [pq[i]], states, sets)
  {
    var kept := Remove(Remove(pq, i), j) + [pq[i]];
    forall x | 0 <= x < |kept| ensures exists y :: 0 <= y < |pq| && kept[x] == pq[y] {
      assert kept[x] in pq;
    }
  }

  /**
    One round of the loop: the two states with the largest spreads leave the heap, the second is merged into the first,
    and the result goes back.
   */
  method MergeRound(pq: seq<State>, ghost vs: seq<seq<Part>>, k: nat, ghost states: set<State>,
                    ghost sets: set<PartSet>)
    returns (pq': seq<State>, ghost i: nat, ghost j: nat, ghost c: seq<Part>)
    requires |pq| > 1 && k > 0 && Heap(pq, vs, k) && Within(pq, states, sets)
    modifies states, sets
    ensures i < |vs| && j < |vs| - 1 && IsMerge(vs[i], Remove(vs, i)[j], c) && Picks(vs, i, j, c)
    ensures |pq'| == |pq| - 1 && Within(pq', states, sets)
    ensures Heap(pq', Remove(Remove(vs, i), j) + [c], k)
  {
    var state0, state1, rest;
    state0, state1, rest, i, j := PopTwo(pq, vs, k);
    HeapRemoveTwo(pq, vs, k, i, j);
    WithinAfterRound(pq, i, j, states, sets);
    ghost var kept := rest + [state0];
    assert Within(kept, states, sets);
    pq', c := MergeAndPush(state0, state1, rest, Remove(Remove(vs, i), j), k, vs[i], Remove(vs, i)[j]);
  }

  /** A fresh state joins the heap. */
  lemma PushContents(vs: seq<seq<Part>>, v: seq<Part>, k: nat, bound: int, items: multiset<Item>, n: nat,
                     equalSize: bool)
    requires Contents(vs, k, bound, items, n, equalSize) && TotalNonEmpty(vs) == n
    requires Good(v, k, bound) && (equalSize ==> IsUniform(v))
    ensures Contents(vs + [v], k, bound, items + Gather(v), n + NumNonEmpty(v), equalSize)
    ensures TotalNonEmpty(vs + [v]) == n + NumNonEmpty(v)
  {
    TotalsPush(vs, v);
  }

  /** `heappush` of a newly built state. */
  method PushNew(block: seq<Item>, k: nat, pq: seq<State>, ghost vs: seq<seq<Part>>,
                 ghost states: set<State>, ghost sets: set<PartSet>)
    returns (pq': seq<State>, ghost v: seq<Part>, ghost states': set<State>, ghost sets': set<PartSet>)
    requires k > 0 && |block| in {1, k}
    requires Heap(pq, vs, k) && Within(pq, states, sets)
    ensures |pq'| == |pq| + 1 && Heap(pq', vs + [v], k) && Within(pq', states', sets')
    ensures fresh(states' - states) && fresh(sets' - sets)
    ensures Fresh(v, block, k)
  {
    var st := new State(block, k);
    v := Views(st.sets);
    states', sets' := states + {st}, sets + SetObjects([st]);
    HeapPush(pq, vs, k, st, v);
    pq' := pq + [st];
  }

  lemma {:induction false} PushSingle(vs: seq<seq<Part>>, v: seq<Part>, items: seq<Item>, n: nat, k: nat)
    requires n < |items| && k > 0
    requires Contents(vs, k, MaxLen(items), multiset(items[..n]), n, false) && TotalNonEmpty(vs) == n
    requires multiset(v) == multiset(InitialParts([items[n]], k)) && Descending(v) && WellSummed(v)
    ensures Contents(vs + [v], k, MaxLen(items), multiset(items[..n + 1]), n + 1, false)
    ensures TotalNonEmpty(vs + [v]) == n + 1
  {
    SingleItemState(v, items[n], k);
    MaxLenBounds(items, n);
    PushContents(vs, v, k, MaxLen(items), multiset(items[..n]), n, false);
    assert items[..n + 1] == items[..n] + [items[n]];
  }

  lemma PushBlock(vs: seq<seq<Part>>, v: seq<Part>, done: multiset<Item>, n: nat, block: seq<Item>, bound: int)
    requires block != [] && Ascending(block) && block[|block| - 1].len - block[0].len <= bound
    requires Contents(vs, |block|, bound, done, n, true) && TotalNonEmpty(vs) == n
    requires multiset(v) == multiset(InitialParts(block, |block|)) && Descending(v) && WellSummed(v)
    ensures Contents(vs + [v], |block|, bound, done + multiset(block), n + |block|, true)
    ensures TotalNonEmpty(vs + [v]) == n + |block|
  {
    BlockState(v, block);
    PushContents(vs, v, |block|, bound, done, n, true);
  }

  lemma StartsOn(items: seq<Item>, k: nat, n: nat, vs: seq<seq<Part>>, v: seq<Part>)
    requires k > 0 && n < |items| && Starts(items[..n], k, false, vs) && Fresh(v, [items[n]], k)
    ensures Starts(items[..n + 1], k, false, vs + [v])
  {
    forall m | 0 <= m < n + 1 ensures Fresh((vs + [v])[m], [items[..n + 1][m]], k) {
      if m < n { assert Fresh(vs[m], [items[..n][m]], k); }
    }
  }

  /** The heap holds the first `n` items. */
  ghost predicate ItemsIn(items: seq<Item>, n: nat, k: nat, vs: seq<seq<Part>>)
    requires n <= |items|
  {
    TotalNonEmpty(vs) == n && Contents(vs, k, MaxLen(items), multiset(items[..n]), n, false)
  }

  lemma {:induction false} AllItems(items: seq<Item>, k: nat, vs: seq<seq<Part>>, n: nat)
    requires k > 0 && n <= |items| && Starts(items, k, false, vs)
    ensures ItemsIn(items, n, k, vs[..n])
  {
    if n > 0 {
      AllItems(items, k, vs, n - 1);
      assert vs[..n] == vs[..n - 1] + [vs[n - 1]];
      PushSingle(vs[..n - 1], vs[n - 1], items, n - 1, k);
    }
  }

  /** Free mode: one state per item. */
  method FillFree(items: seq<Item>, k: nat)
    returns (pq: seq<State>, ghost vs: seq<seq<Part>>, ghost states: set<State>, ghost sets: set<PartSet>)
    requires k > 0
    ensures fresh(states) && fresh(sets) && Heap(pq, vs, k) && Within(pq, states, sets)
    ensures |pq| == |items| && Starts(items, k, false, vs)
  {
    pq, vs, states, sets := [], [], {}, {};
    for n := 0 to |items|
      invariant fresh(states) && fresh(sets) && Heap(pq, vs, k) && Within(pq, states, sets)
      invariant |pq| == n && Starts(items[..n], k, false, vs)
    {
      ghost var v;
      pq, v, states, sets := PushNew([items[n]], k, pq, vs, states, sets);
      StartsOn(items, k, n, vs, v);
      vs := vs + [v];
    }
    assert items[..|items|] == items;
  }

  /** The heap holds the first `b` blocks. */
  ghost predicate BlocksIn(blocks: seq<seq<Item>>, b: nat, k: nat, vs: seq<seq<Part>>)
    requires b <= |blocks|
  {
    var done := BlockItems(blocks[..b]);
    TotalNonEmpty(vs) == |done| && Contents(vs, k, WidestBlock(blocks), done, |done|, true)
  }

  /** What a fresh state holds. */
  ghost predicate Fresh(v: seq<Part>, block: seq<Item>, k: nat)
    requires |block| in {1, k}
  {
    multiset(v) == multiset(InitialParts(block, k)) && Descending(v) && WellSummed(v)
  }

  lemma {:induction false} NextBlock(blocks: seq<seq<Item>>, b: nat, k: nat, vs: seq<seq<Part>>, v: seq<Part>,
                                     vs': seq<seq<Part>>)
    requires k > 0 && 0 < b <= |blocks| && |blocks[b - 1]| == k && Ascending(blocks[b - 1])
    requires BlocksIn(blocks, b - 1, k, vs)
    requires Fresh(v, blocks[b - 1], k) && vs' == vs + [v]
    ensures BlocksIn(blocks, b, k, vs')
  {
    var done, block := BlockItems(blocks[..b - 1]), blocks[b - 1];
    WidestBounds(blocks, b - 1);
    BlockItemsSnoc(blocks[..b - 1], block);
    assert blocks[..b] == blocks[..b - 1] + [block];
    PushBlock(vs, v, done, |done|, block, WidestBlock(blocks));
    assert |done + multiset(block)| == |done| + k;
  }

  /** The equal-size loop: one state per block. */
  method PushBlocks(blocks: seq<seq<Item>>, k: nat)
    returns (pq: seq<State>, ghost vs: seq<seq<Part>>, ghost states: set<State>, ghost sets: set<PartSet>)
    requires k > 0 && forall b :: 0 <= b < |blocks| ==> |blocks[b]| == k
    ensures fresh(states) && fresh(sets) && Heap(pq, vs, k) && Within(pq, states, sets)
    ensures |pq| == |blocks| && FreshBlocks(blocks, k, vs)
  {
    pq, vs, states, sets := [], [], {}, {};
    for b := 0 to |blocks|
      invariant fresh(states) && fresh(sets) && Heap(pq, vs, k) && Within(pq, states, sets)
      invariant |pq| == b && FreshBlocks(blocks[..b], k, vs)
    {
      ghost var v;
      pq, v, states, sets := PushNew(blocks[b], k, pq, vs, states, sets);
      FreshBlocksOn(blocks, k, b, vs, v);
      vs := vs + [v];
    }
    assert blocks[..|blocks|] == blocks;
  }

  ghost predicate FreshBlocks(blocks: seq<seq<Item>>, k: nat, vs: seq<seq<Part>>) {
    |vs| == |blocks| && forall b :: 0 <= b < |blocks| ==> |blocks[b]| == k && Fresh(vs[b], blocks[b], k)
  }

  lemma FreshBlocksOn(blocks: seq<seq<Item>>, k: nat, b: nat, vs: seq<seq<Part>>, v: seq<Part>)
    requires b < |blocks| && FreshBlocks(blocks[..b], k, vs) && |blocks[b]| == k && Fresh(v, blocks[b], k)
    ensures FreshBlocks(blocks[..b + 1], k, vs + [v])
  {
    forall c | 0 <= c < b + 1 ensures |blocks[c]| == k && Fresh((vs + [v])[c], blocks[c], k) {
      if c < b { assert Fresh(vs[c], blocks[..b][c], k); }
    }
  }

  /** Equal-size mode: one state per block of k consecutive items. */
  method FillBlocks(blocks: seq<seq<Item>>, k: nat)
    returns (pq: seq<State>, ghost vs: seq<seq<Part>>, ghost states: set<State>, ghost sets: set<PartSet>)
    requires k > 0 && forall b :: 0 <= b < |blocks| ==> |blocks[b]| == k && Ascending(blocks[b])
    ensures fresh(states) && fresh(sets) && Heap(pq, vs, k) && Within(pq, states, sets)
    ensures |pq| == |blocks|
    ensures Contents(vs, k, WidestBlock(blocks), BlockItems(blocks), |BlockItems(blocks)|, true)
    ensures FreshBlocks(blocks, k, vs)
  {
    pq, vs, states, sets := PushBlocks(blocks, k);
    AllBlocks(blocks, k, vs, |blocks|);
    assert blocks[..|blocks|] == blocks && vs[..|vs|] == vs;
  }

  lemma NoBlocks(blocks: seq<seq<Item>>, k: nat, vs: seq<seq<Part>>)
    ensures BlocksIn(blocks, 0, k, vs[..0])
  {
    assert blocks[..0] == [] && vs[..0] == [];
  }

  lemma {:induction false} AllBlocks(blocks: seq<seq<Item>>, k: nat, vs: seq<seq<Part>>, b: nat)
    requires k > 0 && b <= |blocks| == |vs|
    requires forall c :: 0 <= c < |blocks| ==> |blocks[c]| == k && Ascending(blocks[c])
    requires FreshBlocks(blocks, k, vs)
    ensures BlocksIn(blocks, b, k, vs[..b])
    decreases b
  {
    if b == 0 {
      NoBlocks(blocks, k, vs);
    } else {
      AllBlocks(blocks, k, vs, b - 1);
      assert vs[..b] == vs[..b - 1] + [vs[b - 1]];
      NextBlock(blocks, b, k, vs[..b - 1], vs[b - 1], vs[..b]);
    }
  }

  /** The merge loop: one state is left with everything in it, and it is what the rounds above make of the states. */
  method MergeAll(pq0: seq<State>, ghost vs0: seq<seq<Part>>, k: nat, ghost states: set<State>,
                  ghost sets: set<PartSet>, ghost bound: int, ghost items: multiset<Item>, ghost n: nat,
                  ghost equalSize: bool)
    returns (final: State, ghost v: seq<Part>)
    requires pq0 != [] && k > 0 && Heap(pq0, vs0, k) && Within(pq0, states, sets)
    requires Contents(vs0, k, bound, items, n, equalSize)
    modifies states, sets
    ensures StateHas(final, v, k) && Contents([v], k, bound, items, n, equalSize)
    ensures Reduces(vs0, v)
  {
    var pq := pq0;
    ghost var vs := vs0;
    while |pq| > 1
      invariant |pq| == |vs| > 0 && Heap(pq, vs, k) && Within(pq, states, sets)
      invariant Contents(vs, k, bound, items, n, equalSize)
      invariant ReducesTo(vs0, vs)
      decreases |pq|
    {
      ghost var i, j, c;
      pq, i, j, c := MergeRound(pq, vs, k, states, sets);
      MergeKeepsContents(vs, i, j, c, k, bound, items, n, equalSize);
      OneRound(vs0, vs, i, j, c);
      vs := Remove(Remove(vs, i), j) + [c];
    }
    final, v := pq[0], vs[0];
    assert vs == [v];
    assert Reduces(vs, v);
  }

  /** What these states are turned into, the earlier ones are. */
  ghost predicate ReducesTo(vs0: seq<seq<Part>>, vs: seq<seq<Part>>) {
    forall v :: Reduces(vs, v) ==> Reduces(vs0, v)
  }

  lemma OneRound(vs0: seq<seq<Part>>, vs: seq<seq<Part>>, i: nat, j: nat, c: seq<Part>)
    requires ReducesTo(vs0, vs) && Picks(vs, i, j, c)
    ensures ReducesTo(vs0, Remove(Remove(vs, i), j) + [c])
  {
    forall v | Reduces(Remove(Remove(vs, i), j) + [c], v) ensures Reduces(vs0, v) {
      assert Reduces(vs, v);
    }
  }

  // ---------------------------------------------------------------- what a partitioning promises

  /** How often each index occurs over all parts. */
  function AllIndices(ps: seq<seq<nat>>): multiset<nat> {
    if ps == [] then multiset{} else multiset(ps[0]) + AllIndices(ps[1..])
  }

  /** Every index below n is in exactly one part, once; nothing else is in any part. */
  ghost predicate ExactCover(ps: seq<seq<nat>>, n: nat) {
    forall x: nat :: AllIndices(ps)[x] == if x < n then 1 else 0
  }

  function LengthAt(seqlens: seq<nat>, x: nat): nat {
    if x < |seqlens| then seqlens[x] else 0
  }

  /** Total length assigned to a part. */
  function Load(seqlens: seq<nat>, p: seq<nat>): int {
    Sum(seq(|p|, i requires 0 <= i < |p| => LengthAt(seqlens, p[i])))
  }

  function Filled(p: seq<nat>): bool { p != [] }

  /** Bound on the difference of loads: the longest sequence, or the widest block of k sorted neighbours. */
  function LoadBound(seqlens: seq<nat>, k: nat, equalSize: bool): int
    requires k > 0
  {
    if equalSize then WidestBlock(Blocks(SortItems(Enumerate(seqlens)), k)) else MaxLen(SortItems(Enumerate(seqlens)))
  }

  ghost predicate Balanced(seqlens: seq<nat>, k: nat, equalSize: bool, ps: seq<seq<nat>>)
    requires k > 0
  {
    && |ps| == k
    && ExactCover(ps, |seqlens|)
    && Count(ps, Filled) == Min(k, |seqlens|)
    && (equalSize ==> forall i :: 0 <= i < k ==> |ps[i]| * k == |seqlens|)
    && forall i, j :: 0 <= i < k && 0 <= j < k ==>
      Load(seqlens, ps[i]) - Load(seqlens, ps[j]) <= LoadBound(seqlens, k, equalSize)
  }

  // ---------------------------------------------------------------- from the last state to the partitions

  function Indices(items: seq<Item>): seq<nat> {
    seq(|items|, i requires 0 <= i < |items| => items[i].idx)
  }

  function IndexLists(v: seq<Part>): seq<seq<nat>> {
    seq(|v|, i requires 0 <= i < |v| => Indices(v[i].items))
  }

  ghost predicate Consistent(items: multiset<Item>, seqlens: seq<nat>) {
    forall item :: item in items ==> item.idx < |seqlens| && item.len == seqlens[item.idx]
  }

  lemma {:induction false} IndexCount(items: seq<Item>, seqlens: seq<nat>, x: nat)
    requires Consistent(multiset(items), seqlens)
    ensures multiset(Indices(items))[x] == if x < |seqlens| then multiset(items)[Item(x, seqlens[x])] else 0
  {
    if items != [] {
      var n := |items| - 1;
      assert items == items[..n] + [items[n]];
      assert items[n] in multiset(items);
      IndexCount(items[..n], seqlens, x);
      assert Indices(items) == Indices(items[..n]) + [items[n].idx];
    }
  }

  lemma ConsistentSplit(a: multiset<Item>, b: multiset<Item>, seqlens: seq<nat>)
    requires Consistent(a + b, seqlens)
    ensures Consistent(a, seqlens) && Consistent(b, seqlens)
  {
    forall item | item in a || item in b ensures item.idx < |seqlens| && item.len == seqlens[item.idx] {
      assert item in a + b;
    }
  }

  lemma IndexListsTail(v: seq<Part>)
    requires v != []
    ensures IndexLists(v)[0] == Indices(v[0].items) && IndexLists(v)[1..] == IndexLists(v[1..])
    ensures AllIndices(IndexLists(v)) == multiset(Indices(v[0].items)) + AllIndices(IndexLists(v[1..]))
  {
    assert IndexLists(v)[1..] == IndexLists(v[1..]);
  }

  lemma {:induction false} IndexCountAll(v: seq<Part>, seqlens: seq<nat>, x: nat)
    requires Consistent(Gather(v), seqlens)
    ensures AllIndices(IndexLists(v))[x] == if x < |seqlens| then Gather(v)[Item(x, seqlens[x])] else 0
  {
    if v != [] {
      ConsistentSplit(multiset(v[0].items), Gather(v[1..]), seqlens);
      IndexCount(v[0].items, seqlens, x);
      IndexCountAll(v[1..], seqlens, x);
      IndexListsTail(v);
    }
  }

  lemma EnumerateOnce(seqlens: seq<nat>, x: nat)
    requires x < |seqlens|
    ensures multiset(Enumerate(seqlens))[Item(x, seqlens[x])] == 1
  {
    var e := Enumerate(seqlens);
    assert e[x] in multiset(e);
    DistinctOnce(e, e[x]);
  }

  lemma ConsistentEnumerate(seqlens: seq<nat>)
    ensures Consistent(multiset(Enumerate(seqlens)), seqlens)
  {
    forall item | item in multiset(Enumerate(seqlens))
      ensures item.idx < |seqlens| && item.len == seqlens[item.idx]
    {
      assert item in Enumerate(seqlens);
    }
  }

  lemma {:induction false} InGather(v: seq<Part>, i: nat)
    requires i < |v|
    ensures forall item :: item in v[i].items ==> item in Gather(v)
  {
    if i > 0 { InGather(v[1..], i - 1); }
  }

  lemma {:induction false} LoadIsSum(v: seq<Part>, seqlens: seq<nat>, i: nat)
    requires i < |v| && WellSummed(v) && Consistent(Gather(v), seqlens)
    ensures Load(seqlens, IndexLists(v)[i]) == v[i].sum
  {
    InGather(v, i);
    var items := v[i].items;
    var p := Indices(items);
    forall j | 0 <= j < |items| ensures LengthAt(seqlens, p[j]) == items[j].len {
      assert items[j] in items;
    }
    assert seq(|p|, j requires 0 <= j < |p| => LengthAt(seqlens, p[j])) == Lengths(items);
  }

  lemma {:induction false} FilledCount(v: seq<Part>)
    ensures Count(IndexLists(v), Filled) == NumNonEmpty(v)
  {
    if v != [] {
      FilledCount(v[1..]);
      assert IndexLists(v)[1..] == IndexLists(v[1..]);
    }
  }

  lemma FinalCover(v: seq<Part>, seqlens: seq<nat>)
    requires Gather(v) == multiset(Enumerate(seqlens))
    ensures ExactCover(IndexLists(v), |seqlens|)
  {
    ConsistentEnumerate(seqlens);
    forall x: nat ensures AllIndices(IndexLists(v))[x] == if x < |seqlens| then 1 else 0 {
      IndexCountAll(v, seqlens, x);
      if x < |seqlens| { EnumerateOnce(seqlens, x); }
    }
  }

  lemma FinalLoads(v: seq<Part>, seqlens: seq<nat>, k: nat, bound: int, i: nat, j: nat)
    requires Gather(v) == multiset(Enumerate(seqlens)) && Good(v, k, bound) && i < k && j < k
    ensures Load(seqlens, IndexLists(v)[i]) - Load(seqlens, IndexLists(v)[j]) <= bound
  {
    ConsistentEnumerate(seqlens);
    LoadIsSum(v, seqlens, i);
    LoadIsSum(v, seqlens, j);
    DescendingSums(v, i, j);
    DescendingSums(v, 0, k - 1);
  }

  lemma {:induction false} FinalSizes(v: seq<Part>, seqlens: seq<nat>)
    requires Gather(v) == multiset(Enumerate(seqlens)) && IsUniform(v)
    ensures forall i :: 0 <= i < |v| ==> |IndexLists(v)[i]| * |v| == |seqlens|
  {
    var size :| UniformSize(v, size);
    GatherUniform(v, size);
    assert |multiset(Enumerate(seqlens))| == |seqlens|;
    Commute(|v|, size);
    forall i | 0 <= i < |v| ensures |IndexLists(v)[i]| == size { assert |v[i].items| == size; }
  }

  lemma {:induction false} Commute(a: nat, b: nat)
    ensures a * b == b * a
  {
  }

  lemma SingleContents(v: seq<Part>, k: nat, bound: int, items: multiset<Item>, n: nat, equalSize: bool)
    requires Contents([v], k, bound, items, n, equalSize)
    ensures Good(v, k, bound) && Gather(v) == items && Min(k, NumNonEmpty(v)) == Min(k, n)
    ensures equalSize ==> IsUniform(v)
  {
    TotalsPush([], v);
    assert [] + [v] == [v];
    assert v in [v];
  }

  /** The surviving state, read off as lists of indices, is a balanced partitioning. */
  lemma FinalIsBalanced(v: seq<Part>, seqlens: seq<nat>, k: nat, equalSize: bool)
    requires k > 0
    requires Contents([v], k, LoadBound(seqlens, k, equalSize), multiset(Enumerate(seqlens)), |seqlens|, equalSize)
    ensures Balanced(seqlens, k, equalSize, IndexLists(v)) && SumsAre(seqlens, IndexLists(v), v)
  {
    var bound := LoadBound(seqlens, k, equalSize);
    SingleContents(v, k, bound, multiset(Enumerate(seqlens)), |seqlens|, equalSize);
    FinalCover(v, seqlens);
    FilledCount(v);
    ConsistentEnumerate(seqlens);
    forall i | 0 <= i < k ensures Load(seqlens, IndexLists(v)[i]) == v[i].sum { LoadIsSum(v, seqlens, i); }
    if equalSize { FinalSizes(v, seqlens); }
    forall i, j | 0 <= i < k && 0 <= j < k
      ensures Load(seqlens, IndexLists(v)[i]) - Load(seqlens, IndexLists(v)[j]) <= bound
    {
      FinalLoads(v, seqlens, k, bound, i, j);
    }
  }

  method GetPartitions(st: State) returns (partitions: seq<seq<nat>>)
    requires st.Valid()
    ensures partitions == IndexLists(Views(st.sets))
  {
    partitions := [];
    for i := 0 to |st.sets|
      invariant |partitions| == i
      invariant forall j :: 0 <= j < i ==> partitions[j] == Indices(st.sets[j].items)
    {
      var cur: seq<nat> := [];
      for j := 0 to |st.sets[i].items|
        invariant |cur| == j && forall x :: 0 <= x < j ==> cur[x] == st.sets[i].items[x].idx
      {
        cur := cur + [st.sets[i].items[j].idx];
      }
      assert cur == Indices(st.sets[i].items);
      partitions := partitions + [cur];
    }
  }

  /** The sizes checked at the end of the equal-size mode. */
  method SizesMatch(partitions: seq<seq<nat>>, k: nat, n: nat) returns (ok: bool)
    ensures ok <==> forall i :: 0 <= i < |partitions| ==> |partitions[i]| * k == n
  {
    for i := 0 to |partitions|
      invariant forall j :: 0 <= j < i ==> |partitions[j]| * k == n
    {
      if |partitions[i]| * k != n { return false; }
    }
    ok := true;
  }

  /**
    `karmarkar_karp`: fails on an empty list and, in equal-size mode, on an indivisible one; else it gives the balanced
    partitioning that largest-spread-first differencing ends with.
   */
  method KarmarkarKarp(seqlens: seq<nat>, k: nat, equalSize: bool) returns (out: Option<seq<seq<nat>>>)
    requires k > 0
    ensures out.None? <==> seqlens == [] || (equalSize && |seqlens| % k != 0)
    ensures out.Some? ==> Balanced(seqlens, k, equalSize, out.value) && Differenced(seqlens, k, equalSize, out.value)
  {
    if equalSize && |seqlens| % k != 0 { return None; }
    var pq;
    ghost var vs, states, sets, items;
    pq, vs, states, sets, items := FillHeap(seqlens, k, equalSize);
    if pq == [] { return None; }
    var partitions := MergeHeap(seqlens, k, equalSize, pq, vs, states, sets, items);
    if equalSize {
      var ok := SizesMatch(partitions, k, |seqlens|);
      if !ok { return None; }
    }
    out := Some(partitions);
  }

  method MergeHeap(seqlens: seq<nat>, k: nat, equalSize: bool, pq: seq<State>, ghost vs: seq<seq<Part>>,
                   ghost states: set<State>, ghost sets: set<PartSet>, ghost items: seq<Item>)
    returns (partitions: seq<seq<nat>>)
    requires k > 0 && pq != [] && Heap(pq, vs, k) && Within(pq, states, sets)
    requires Contents(vs, k, LoadBound(seqlens, k, equalSize), multiset(Enumerate(seqlens)), |seqlens|, equalSize)
    requires InOrder(seqlens, items) && Starts(items, k, equalSize, vs)
    modifies states, sets
    ensures Balanced(seqlens, k, equalSize, partitions) && Differenced(seqlens, k, equalSize, partitions)
  {
    ghost var v;
    partitions, v := MergedParts(seqlens, k, equalSize, pq, vs, states, sets);
    FinalParts(seqlens, k, equalSize, items, vs, v, partitions);
  }

  method MergedParts(seqlens: seq<nat>, k: nat, equalSize: bool, pq: seq<State>, ghost vs: seq<seq<Part>>,
                     ghost states: set<State>, ghost sets: set<PartSet>)
    returns (partitions: seq<seq<nat>>, ghost v: seq<Part>)
    requires k > 0 && pq != [] && Heap(pq, vs, k) && Within(pq, states, sets)
    requires Contents(vs, k, LoadBound(seqlens, k, equalSize), multiset(Enumerate(seqlens)), |seqlens|, equalSize)
    modifies states, sets
    ensures partitions == IndexLists(v) && Reduces(vs, v)
    ensures Contents([v], k, LoadBound(seqlens, k, equalSize), multiset(Enumerate(seqlens)), |seqlens|, equalSize)
  {
    var final;
    final, v := MergeAll(pq, vs, k, states, sets, LoadBound(seqlens, k, equalSize),
                         multiset(Enumerate(seqlens)), |seqlens|, equalSize);
    partitions := GetPartitions(final);
  }

  lemma FinalParts(seqlens: seq<nat>, k: nat, equalSize: bool, items: seq<Item>, vs: seq<seq<Part>>, v: seq<Part>,
                   ps: seq<seq<nat>>)
    requires k > 0 && InOrder(seqlens, items) && Starts(items, k, equalSize, vs) && Reduces(vs, v)
    requires ps == IndexLists(v)
    requires Contents([v], k, LoadBound(seqlens, k, equalSize), multiset(Enumerate(seqlens)), |seqlens|, equalSize)
    ensures Balanced(seqlens, k, equalSize, ps) && Differenced(seqlens, k, equalSize, ps)
  {
    FinalIsBalanced(v, seqlens, k, equalSize);
    IsDifferenced(seqlens, k, equalSize, items, vs, v, ps);
  }

  lemma IsDifferenced(seqlens: seq<nat>, k: nat, equalSize: bool, items: seq<Item>, vs: seq<seq<Part>>, v: seq<Part>,
                      ps: seq<seq<nat>>)
    requires k > 0 && InOrder(seqlens, items) && Starts(items, k, equalSize, vs) && Reduces(vs, v)
    requires ps == IndexLists(v) && SumsAre(seqlens, ps, v)
    ensures Differenced(seqlens, k, equalSize, ps)
  {
  }

  method FillHeap(seqlens: seq<nat>, k: nat, equalSize: bool)
    returns (pq: seq<State>, ghost vs: seq<seq<Part>>, ghost states: set<State>, ghost sets: set<PartSet>,
             ghost items: seq<Item>)
    requires k > 0 && (equalSize ==> |seqlens| % k == 0)
    ensures fresh(states) && fresh(sets) && Heap(pq, vs, k) && Within(pq, states, sets)
    ensures pq == [] <==> seqlens == []
    ensures InOrder(seqlens, items) && Starts(items, k, equalSize, vs)
    ensures Contents(vs, k, LoadBound(seqlens, k, equalSize), multiset(Enumerate(seqlens)), |seqlens|, equalSize)
  {
    var sorted := SortItems(Enumerate(seqlens));
    SortedInOrder(seqlens, sorted);
    items := sorted;
    if equalSize {
      BlocksAscending(sorted, k);
      BlocksCover(sorted, k);
      pq, vs, states, sets := FillBlocks(Blocks(sorted, k), k);
      BlocksStart(sorted, k, vs);
    } else {
      pq, vs, states, sets := FillFree(sorted, k);
      AllItems(sorted, k, vs, |sorted|);
      assert sorted[..|sorted|] == sorted && vs[..|vs|] == vs;
    }
  }

  lemma SortedInOrder(seqlens: seq<nat>, items: seq<Item>)
    requires Ascending(items) && multiset(items) == multiset(Enumerate(seqlens))
    ensures InOrder(seqlens, items)
  {
    var e := Enumerate(seqlens);
    assert Distinct(e);
    SameObjects(e, items);
    forall i, j | 0 <= i < j < |items|
      ensures items[i].len < items[j].len || (items[i].len == items[j].len && items[i].idx < items[j].idx)
    {
      assert !ItemLess(items[j], items[i]);
      assert items[i] in e && items[j] in e && items[i] != items[j];
    }
  }

  lemma {:induction false} BlockAt(items: seq<Item>, k: nat, b: nat)
    requires k > 0 && b < |Blocks(items, k)|
    ensures b * k >= 0 && b * k + k <= |items| && Blocks(items, k)[b] == items[b * k..b * k + k]
    decreases b
  {
    if b > 0 {
      BlockAt(items[k..], k, b - 1);
      MulSucc(b - 1, k);
      SliceOfRest(items, k, (b - 1) * k);
    }
  }

  lemma SliceOfRest(items: seq<Item>, k: nat, m: nat)
    requires k + m + k <= |items|
    ensures items[k..][m..m + k] == items[m + k..m + k + k]
  {
  }

  lemma {:induction false} BlockNumber(items: seq<Item>, k: nat)
    requires k > 0 && |items| % k == 0
    ensures |Blocks(items, k)| * k == |items|
  {
    MultipleStep(|items|, k);
    if |items| >= k {
      BlockNumber(items[k..], k);
      MulSucc(|Blocks(items[k..], k)|, k);
    }
  }

  lemma BlocksStart(items: seq<Item>, k: nat, vs: seq<seq<Part>>)
    requires k > 0 && |items| % k == 0 && FreshBlocks(Blocks(items, k), k, vs)
    ensures Starts(items, k, true, vs)
  {
    BlockNumber(items, k);
    forall b: nat | b < |vs| ensures StartsBlock(items, k, b, vs[b]) { BlockAt(items, k, b); }
  }

  // ---------------------------------------------------------------- an instance

  /** States of two sets with these sums. */
  ghost predicate PairSums(vs: seq<seq<Part>>, g: seq<(int, int)>) {
    |vs| == |g| && forall n :: 0 <= n < |g| ==> PairSum(vs[n], g[n])
  }

  ghost predicate PairSum(v: seq<Part>, g: (int, int)) {
    |v| == 2 && v[0].sum == g.0 && v[1].sum == g.1 && g.0 >= g.1
  }

  /** A pair that leaves before all others, on sums alone. */
  ghost predicate Leads(g: seq<(int, int)>, i: nat) {
    i < |g| && forall n :: 0 <= n < |g| && n != i ==> LeadsOver(g[i], g[n])
  }

  ghost predicate LeadsOver(a: (int, int), b: (int, int)) {
    a.0 - a.1 > b.0 - b.1 || (a.0 - a.1 == b.0 - b.1 && a.0 > b.0)
  }

  function Crossing(a: (int, int), b: (int, int)): (int, int) {
    (Max(a.0 + b.1, a.1 + b.0), Min(a.0 + b.1, a.1 + b.0))
  }

  lemma CrossingSums(a: seq<Part>, b: seq<Part>, c: seq<Part>, x: (int, int), y: (int, int))
    requires PairSum(a, x) && PairSum(b, y) && IsMerge(a, b, c)
    ensures PairSum(c, Crossing(x, y))
  {
    var m := Crossed(a, b);
    assert m == [m[0], m[1]] && c == [c[0], c[1]];
    assert multiset(m) == multiset{m[0], m[1]} && multiset(c) == multiset{c[0], c[1]};
    assert c[0] in multiset(m) && c[1] in multiset(m) && m[0] in multiset(c) && m[1] in multiset(c);
    assert !PartLess(c[0], c[1]);
  }

  lemma LeaderIsNotLater(a: seq<Part>, b: seq<Part>, x: (int, int), y: (int, int))
    requires PairSum(a, x) && PairSum(b, y) && LeadsOver(x, y)
    ensures !NoLater(b, a)
  {
  }

  lemma LeadsIsFirst(vs: seq<seq<Part>>, g: seq<(int, int)>, i: nat, at: nat)
    requires PairSums(vs, g) && Leads(g, i) && First(vs, at)
    ensures at == i
  {
    if at != i { LeaderIsNotLater(vs[i], vs[at], g[i], g[at]); }
  }

  /** What is left of the sums after a round. */
  function AfterPair(g: seq<(int, int)>, i: nat, j: nat): seq<(int, int)>
    requires i < |g| && j < |g| - 1
  {
    Remove(Remove(g, i), j) + [Crossing(g[i], Remove(g, i)[j])]
  }

  lemma PairsRemove(vs: seq<seq<Part>>, g: seq<(int, int)>, i: nat)
    requires PairSums(vs, g) && i < |g|
    ensures PairSums(Remove(vs, i), Remove(g, i))
  {
    forall n | 0 <= n < |g| - 1 ensures PairSum(Remove(vs, i)[n], Remove(g, i)[n]) {
      assert PairSum(vs[if n < i then n else n + 1], g[if n < i then n else n + 1]);
    }
  }

  lemma PairsPush(vs: seq<seq<Part>>, g: seq<(int, int)>, c: seq<Part>, x: (int, int))
    requires PairSums(vs, g) && PairSum(c, x)
    ensures PairSums(vs + [c], g + [x])
  {
  }

  lemma PairRound(vs: seq<seq<Part>>, g: seq<(int, int)>, v: seq<Part>, i: nat, j: nat) returns (vs': seq<seq<Part>>)
    requires PairSums(vs, g) && Reduces(vs, v) && |g| > 1 && Leads(g, i) && Leads(Remove(g, i), j)
    ensures Reduces(vs', v) && PairSums(vs', AfterPair(g, i, j))
  {
    var i0: nat, j0: nat, c :| Picks(vs, i0, j0, c) && Reduces(Remove(Remove(vs, i0), j0) + [c], v);
    PairsRemove(vs, g, i);
    LeadsIsFirst(vs, g, i, i0);
    LeadsIsFirst(Remove(vs, i), Remove(g, i), j, j0);
    CrossingSums(vs[i], Remove(vs, i)[j], c, g[i], Remove(g, i)[j]);
    PairsRemove(Remove(vs, i), Remove(g, i), j);
    PairsPush(Remove(Remove(vs, i), j), Remove(Remove(g, i), j), c, Crossing(g[i], Remove(g, i)[j]));
    vs' := Remove(Remove(vs, i), j) + [c];
  }

  lemma FreshPair(v: seq<Part>, item: Item)
    requires Fresh(v, [item], 2)
    ensures PairSum(v, (item.len, 0))
  {
    var w := InitialParts([item], 2);
    assert w == [w[0], w[1]];
    SameObjects(w, v);
    assert v == [v[0], v[1]];
    assert multiset(v) == multiset{v[0], v[1]} && multiset(w) == multiset{w[0], w[1]};
    assert v[0] in w && v[1] in w && w[0] in v && w[1] in v;
    assert !PartLess(v[0], v[1]);
  }

  /** Five lengths for two parts: 8 is merged with 7, then 6 with 5, and the sums are 16 and 14. */
  lemma {:induction false} FiveLengths(ps: seq<seq<nat>>)
    requires Differenced([8, 7, 6, 5, 4], 2, false, ps)
    ensures |ps| == 2 && Load([8, 7, 6, 5, 4], ps[0]) == 16 && Load([8, 7, 6, 5, 4], ps[1]) == 14
  {
    var items, vs, v :| InOrder([8, 7, 6, 5, 4], items) && Starts(items, 2, false, vs) && Reduces(vs, v)
      && ps == IndexLists(v) && SumsAre([8, 7, 6, 5, 4], ps, v);
    FiveStart(items, vs);
    FiveRounds(vs, v);
  }

  lemma FiveStart(items: seq<Item>, vs: seq<seq<Part>>)
    requires InOrder([8, 7, 6, 5, 4], items) && Starts(items, 2, false, vs)
    ensures PairSums(vs, FIVE)
  {
    FiveInOrder(items);
    FiveLens(items);
    forall n | 0 <= n < 5 ensures PairSum(vs[n], FIVE[n]) { FreshPair(vs[n], items[n]); }
  }

  lemma FiveLens(items: seq<Item>)
    requires items == [Item(4, 4), Item(3, 5), Item(2, 6), Item(1, 7), Item(0, 8)]
    ensures |items| == |FIVE| == 5 && forall n :: 0 <= n < 5 ==> FIVE[n] == (items[n].len, 0)
  {
  }

  const FIVE: seq<(int, int)> := [(4, 0), (5, 0), (6, 0), (7, 0), (8, 0)]

  lemma FiveRounds(vs: seq<seq<Part>>, v: seq<Part>)
    requires PairSums(vs, FIVE) && Reduces(vs, v)
    ensures PairSum(v, (16, 14))
  {
    var g0, g1, g2, g3 := FIVE, [(4, 0), (5, 0), (6, 0), (8, 7)], [(4, 0), (8, 7), (6, 5)], [(6, 5), (11, 8)];
    FirstRounds();
    LastRounds();
    var vs1 := PairRound(vs, g0, v, 4, 3);
    var vs2 := PairRound(vs1, g1, v, 2, 1);
    var vs3 := PairRound(vs2, g2, v, 0, 0);
    var vs4 := PairRound(vs3, g3, v, 1, 0);
    assert vs4 == [v] && PairSum(vs4[0], (16, 14));
  }

  lemma FirstRounds()
    ensures Leads(FIVE, 4) && Leads(Remove(FIVE, 4), 3) && AfterPair(FIVE, 4, 3) == [(4, 0), (5, 0), (6, 0), (8, 7)]
    ensures var g := [(4, 0), (5, 0), (6, 0), (8, 7)];
      Leads(g, 2) && Leads(Remove(g, 2), 1) && AfterPair(g, 2, 1) == [(4, 0), (8, 7), (6, 5)]
  {
  }

  lemma LastRounds()
    ensures var g := [(4, 0), (8, 7), (6, 5)];
      Leads(g, 0) && Leads(Remove(g, 0), 0) && AfterPair(g, 0, 0) == [(6, 5), (11, 8)]
    ensures var g := [(6, 5), (11, 8)]; Leads(g, 1) && Leads(Remove(g, 1), 0) && AfterPair(g, 1, 0) == [(16, 14)]
  {
  }

  lemma FiveInOrder(items: seq<Item>)
    requires InOrder([8, 7, 6, 5, 4], items)
    ensures items == [Item(4, 4), Item(3, 5), Item(2, 6), Item(1, 7), Item(0, 8)]
  {
    var s := [Item(4, 4), Item(3, 5), Item(2, 6), Item(1, 7), Item(0, 8)];
    EnumerateFive();
    SameObjects(Enumerate([8, 7, 6, 5, 4]), items);
    OrderUnique(s, items);
  }

  lemma EnumerateFive()
    ensures Enumerate([8, 7, 6, 5, 4]) == [Item(0, 8), Item(1, 7), Item(2, 6), Item(3, 5), Item(4, 4)]
  {
  }

  ghost predicate StrictlyInOrder(items: seq<Item>) {
    forall i, j :: 0 <= i < j < |items| ==> ItemLess(items[i], items[j])
  }

  ghost predicate SameItems(s: seq<Item>, r: seq<Item>) {
    |s| == |r| && forall x :: x in s <==> x in r
  }

  lemma SameFirst(s: seq<Item>, r: seq<Item>)
    requires s != [] && SameItems(s, r) && StrictlyInOrder(s) && StrictlyInOrder(r)
    ensures s[0] == r[0] && SameItems(s[1..], r[1..])
  {
    assert s[0] in s && s[0] in r;
    assert r[0] in s;
    var i :| 0 <= i < |s| && s[i] == r[0];
    var j :| 0 <= j < |r| && r[j] == s[0];
    assert i == 0 || ItemLess(s[0], s[i]);
    assert j == 0 || ItemLess(r[0], r[j]);
    forall x ensures x in s[1..] <==> x in r[1..] {
      InTail(s, x);
      InTail(r, x);
    }
  }

  lemma InTail(s: seq<Item>, x: Item)
    requires s != [] && StrictlyInOrder(s)
    ensures x in s[1..] <==> x in s && x != s[0]
  {
    assert s == [s[0]] + s[1..];
    if x in s[1..] {
      var i :| 0 <= i < |s| - 1 && s[1..][i] == x;
      assert ItemLess(s[0], s[i + 1]);
    }
  }

  /** A list in strictly ascending order is determined by what is in it. */
  lemma {:induction false} OrderUnique(s: seq<Item>, r: seq<Item>)
    requires SameItems(s, r) && StrictlyInOrder(s) && StrictlyInOrder(r)
    ensures s == r
  {
    if s != [] {
      SameFirst(s, r);
      OrderUnique(s[1..], r[1..]);
      assert s == [s[0]] + s[1..] && r == [r[0]] + r[1..];
    }
  }
}
