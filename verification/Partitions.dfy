/**
  The checked entry point `get_seqlen_balanced_partitions` and the greedy alternative
  (`miles/utils/seqlen_balancing.py`).
 */
module Partitions {
  import opened Arith
  import opened Options
  import opened Sequences
  import opened Balancing

  ghost predicate StrictlyAscending(p: seq<nat>) {
    forall i, j :: 0 <= i < j < |p| ==> p[i] < p[j]
  }

  // ---------------------------------------------------------------- sorting a part

  ghost predicate WeaklyAscending(p: seq<nat>) {
    forall i, j :: 0 <= i < j < |p| ==> p[i] <= p[j]
  }

  function IndexPosition(s: seq<nat>, x: nat): (p: nat)
    ensures p <= |s| && (p < |s| ==> x <= s[p])
    ensures forall i :: 0 <= i < p ==> s[i] < x
  {
    if s == [] || x <= s[0] then 0 else 1 + IndexPosition(s[1..], x)
  }

  lemma InsertWeakly(s: seq<nat>, x: nat, p: nat)
    requires WeaklyAscending(s) && p <= |s| && (p < |s| ==> x <= s[p])
    requires forall i :: 0 <= i < p ==> s[i] < x
    ensures WeaklyAscending(Insert(s, x, p))
  {
  }

  function SortIndices(p: seq<nat>): (r: seq<nat>)
    ensures WeaklyAscending(r) && multiset(r) == multiset(p)
  {
    if p == [] then []
    else
      assert p == [p[0]] + p[1..];
      var rest := SortIndices(p[1..]);
      var at := IndexPosition(rest, p[0]);
      InsertWeakly(rest, p[0], at);
      InsertMultiset(rest, p[0], at);
      Insert(rest, p[0], at)
  }

  // ---------------------------------------------------------------- what sorting leaves unchanged

  lemma LoadAppend(seqlens: seq<nat>, p: seq<nat>, x: nat)
    ensures Load(seqlens, p + [x]) == Load(seqlens, p) + LengthAt(seqlens, x)
  {
    var q := p + [x];
    assert seq(|q|, i requires 0 <= i < |q| => LengthAt(seqlens, q[i]))
        == seq(|p|, i requires 0 <= i < |p| => LengthAt(seqlens, p[i])) + [LengthAt(seqlens, x)];
  }

  lemma LoadRemove(seqlens: seq<nat>, p: seq<nat>, i: nat)
    requires i < |p|
    ensures Load(seqlens, p) == Load(seqlens, Remove(p, i)) + LengthAt(seqlens, p[i])
  {
    var s := seq(|p|, j requires 0 <= j < |p| => LengthAt(seqlens, p[j]));
    var q := Remove(p, i);
    assert seq(|q|, j requires 0 <= j < |q| => LengthAt(seqlens, q[j])) == Remove(s, i);
    SumRemove(s, i);
  }

  lemma {:induction false} LoadPermutation(seqlens: seq<nat>, p: seq<nat>, q: seq<nat>)
    requires multiset(p) == multiset(q)
    ensures Load(seqlens, p) == Load(seqlens, q)
  {
    if p == [] {
      assert |multiset(q)| == 0;
    } else {
      var j := FindFirst(p, q);
      LoadRemove(seqlens, p, 0);
      assert Remove(p, 0) == p[1..];
      LoadRemove(seqlens, q, j);
      LoadPermutation(seqlens, p[1..], Remove(q, j));
    }
  }

  ghost predicate SameParts(ps: seq<seq<nat>>, qs: seq<seq<nat>>) {
    |ps| == |qs| && forall i :: 0 <= i < |ps| ==> multiset(ps[i]) == multiset(qs[i]) && |ps[i]| == |qs[i]|
  }

  lemma {:induction false} SamePartsCover(ps: seq<seq<nat>>, qs: seq<seq<nat>>)
    requires SameParts(ps, qs)
    ensures AllIndices(ps) == AllIndices(qs)
    ensures Count(ps, Filled) == Count(qs, Filled)
  {
    if ps != [] { SamePartsCover(ps[1..], qs[1..]); }
  }

  lemma SamePartsBalanced(seqlens: seq<nat>, k: nat, equalSize: bool, ps: seq<seq<nat>>, qs: seq<seq<nat>>)
    requires k > 0 && SameParts(ps, qs) && Balanced(seqlens, k, equalSize, ps)
    ensures Balanced(seqlens, k, equalSize, qs)
  {
    SamePartsCover(ps, qs);
    forall i, j | 0 <= i < k && 0 <= j < k
      ensures Load(seqlens, qs[i]) - Load(seqlens, qs[j]) <= LoadBound(seqlens, k, equalSize)
    {
      LoadPermutation(seqlens, ps[i], qs[i]);
      LoadPermutation(seqlens, ps[j], qs[j]);
      assert Load(seqlens, ps[i]) - Load(seqlens, ps[j]) <= LoadBound(seqlens, k, equalSize);
    }
  }

  // ---------------------------------------------------------------- facts about exact covers

  lemma {:induction false} PartWithin(ps: seq<seq<nat>>, i: nat)
    requires i < |ps|
    ensures multiset(ps[i]) <= AllIndices(ps)
  {
    if i > 0 { PartWithin(ps[1..], i - 1); }
  }

  lemma {:induction false} CoverSnoc(ps: seq<seq<nat>>, p: seq<nat>)
    ensures AllIndices(ps + [p]) == AllIndices(ps) + multiset(p)
  {
    if ps == [] {
      assert ([] + [p])[1..] == [];
    } else {
      CoverSnoc(ps[1..], p);
      assert (ps + [p])[1..] == ps[1..] + [p];
    }
  }

  lemma {:induction false} AllFilled<T>(s: seq<T>, p: T -> bool)
    requires Count(s, p) == |s|
    ensures forall i :: 0 <= i < |s| ==> p(s[i])
  {
    if s != [] {
      AllFilled(s[1..], p);
    }
  }

  lemma SortedPartStrict(ps: seq<seq<nat>>, n: nat, i: nat)
    requires ExactCover(ps, n) && i < |ps| && WeaklyAscending(ps[i])
    ensures StrictlyAscending(ps[i]) && forall x :: x in ps[i] ==> x < n
  {
    PartWithin(ps, i);
    var p := ps[i];
    forall x | x in p ensures x < n && multiset(p)[x] == 1 {
      assert x in multiset(p);
      assert 1 <= multiset(p)[x] <= AllIndices(ps)[x];
    }
    forall a, b | 0 <= a < b < |p| ensures p[a] < p[b] {
      assert p[a] in p;
      if p[a] == p[b] { Twice(p, a, b); }
    }
  }

  // ---------------------------------------------------------------- get_seqlen_balanced_partitions

  /**
    Every run either fails one of the two admission tests or passes all the checks on the result:
    the checks inside `_check_and_sort_partitions` never fire.
   */
  method GetSeqlenBalancedPartitions(seqlens: seq<nat>, k: nat, equalSize: bool) returns (out: Option<seq<seq<nat>>>)
    requires k > 0
    ensures out.None? <==> |seqlens| < k || (equalSize && |seqlens| % k != 0)
    ensures out.Some? ==> Balanced(seqlens, k, equalSize, out.value)
    ensures out.Some? ==> SortedDifferenced(seqlens, k, equalSize, out.value)
    ensures out.Some? ==> forall i :: 0 <= i < k ==> out.value[i] != [] && StrictlyAscending(out.value[i])
  {
    if |seqlens| < k { return None; }
    var raw := KarmarkarKarp(seqlens, k, equalSize);
    if raw.None? { return None; }
    out := CheckAndSort(seqlens, k, equalSize, raw.value);
  }

  /** The parts of the differencing, each with its indices in another order. */
  ghost predicate SortedDifferenced(seqlens: seq<nat>, k: nat, equalSize: bool, ps: seq<seq<nat>>)
    requires k > 0
  {
    exists raw | Differenced(seqlens, k, equalSize, raw) :: SameParts(raw, ps)
  }

  /** `set(range(n))` */
  function IndexRange(n: nat): (r: set<nat>)
    ensures forall x: nat :: x in r <==> x < n
  {
    if n == 0 then {} else IndexRange(n - 1) + {n - 1}
  }

  method CheckAndSort(seqlens: seq<nat>, k: nat, equalSize: bool, partitions: seq<seq<nat>>)
    returns (out: Option<seq<seq<nat>>>)
    requires 0 < k <= |seqlens| && Balanced(seqlens, k, equalSize, partitions)
    ensures out.Some? && SameParts(partitions, out.value) && Balanced(seqlens, k, equalSize, out.value)
    ensures forall i :: 0 <= i < k ==> out.value[i] != [] && StrictlyAscending(out.value[i])
  {
    if |partitions| != k { return None; }
    AllFilled(partitions, Filled);
    assert forall i :: 0 <= i < k ==> Filled(partitions[i]);
    var sorted, seen := SortParts(partitions);
    if sorted.None? { return None; }
    SeenAll(partitions, |seqlens|, seen);
    if seen != IndexRange(|seqlens|) { return None; }
    SamePartsBalanced(seqlens, k, equalSize, partitions, sorted.value);
    forall i | 0 <= i < k ensures sorted.value[i] != [] && StrictlyAscending(sorted.value[i]) {
      assert |sorted.value[i]| == |partitions[i]|;
      SortedPartStrict(sorted.value, |seqlens|, i);
    }
    out := sorted;
  }

  /** The loop of the check: no part may be empty, every index is noted, every part is sorted. */
  method SortParts(partitions: seq<seq<nat>>) returns (out: Option<seq<seq<nat>>>, seen: set<nat>)
    ensures out.Some? <==> forall i :: 0 <= i < |partitions| ==> partitions[i] != []
    ensures out.Some? ==> SameParts(partitions, out.value)
    ensures out.Some? ==> forall i :: 0 <= i < |partitions| ==> WeaklyAscending(out.value[i])
    ensures out.Some? ==> SeenExactly(seen, partitions)
  {
    seen := {};
    var sorted: seq<seq<nat>> := [];
    for i := 0 to |partitions|
      invariant AllSorted(partitions[..i], sorted)
      invariant forall j :: 0 <= j < i ==> partitions[j] != []
      invariant SeenExactly(seen, partitions[..i])
    {
      if partitions[i] == [] { return None, seen; }
      SeenStep(seen, partitions, i);
      var p := partitions[i];
      seen := seen + set x | x in p;
      var r := SortPart(p);
      AllSortedStep(partitions, i, sorted, r);
      sorted := sorted + [r];
    }
    assert partitions[..|partitions|] == partitions;
    AllSortedMeans(partitions, sorted);
    out := Some(sorted);
  }

  method SortPart(p: seq<nat>) returns (r: seq<nat>)
    ensures IsSorted(p, r)
  {
    r := SortIndices(p);
    SameSize(r, p);
  }

  ghost predicate IsSorted(p: seq<nat>, r: seq<nat>) {
    multiset(r) == multiset(p) && |r| == |p| && WeaklyAscending(r)
  }

  ghost predicate AllSorted(ps: seq<seq<nat>>, sorted: seq<seq<nat>>) {
    |ps| == |sorted| && forall j :: 0 <= j < |ps| ==> IsSorted(ps[j], sorted[j])
  }

  lemma AllSortedStep(ps: seq<seq<nat>>, i: nat, sorted: seq<seq<nat>>, r: seq<nat>)
    requires i < |ps| && AllSorted(ps[..i], sorted) && IsSorted(ps[i], r)
    ensures AllSorted(ps[..i + 1], sorted + [r])
  {
  }

  lemma AllSortedMeans(ps: seq<seq<nat>>, sorted: seq<seq<nat>>)
    requires AllSorted(ps, sorted)
    ensures SameParts(ps, sorted) && forall i :: 0 <= i < |ps| ==> WeaklyAscending(sorted[i])
  {
  }

  ghost predicate SeenExactly(seen: set<nat>, ps: seq<seq<nat>>) {
    forall x :: x in seen <==> x in AllIndices(ps)
  }

  lemma SeenStep(seen: set<nat>, ps: seq<seq<nat>>, i: nat)
    requires i < |ps| && SeenExactly(seen, ps[..i])
    ensures var p := ps[i]; SeenExactly(seen + (set x | x in p), ps[..i + 1])
  {
    CoverSnoc(ps[..i], ps[i]);
    assert ps[..i + 1] == ps[..i] + [ps[i]];
  }

  lemma SameSize(r: seq<nat>, p: seq<nat>)
    requires multiset(r) == multiset(p)
    ensures |r| == |p|
  {
    assert |r| == |multiset(r)|;
  }

  lemma SeenAll(ps: seq<seq<nat>>, n: nat, seen: set<nat>)
    requires ExactCover(ps, n) && SeenExactly(seen, ps)
    ensures seen == IndexRange(n)
  {
  }

  // ---------------------------------------------------------------- greedy_partition

  function Longest(seqlens: seq<nat>): (m: nat)
    ensures forall i :: 0 <= i < |seqlens| ==> seqlens[i] <= m
    ensures seqlens != [] ==> m in seqlens
  {
    if seqlens == [] then 0
    else
      var rest := Longest(seqlens[1..]);
      if seqlens[0] >= rest then seqlens[0] else rest
  }

  function Sizes(ps: seq<seq<nat>>): seq<int> {
    seq(|ps|, i requires 0 <= i < |ps| => |ps[i]|)
  }

  lemma {:induction false} CoverSize(ps: seq<seq<nat>>)
    ensures |AllIndices(ps)| == Sum(Sizes(ps))
  {
    if ps != [] {
      CoverSize(ps[1..]);
      SumRemove(Sizes(ps), 0);
      assert Remove(Sizes(ps), 0) == Sizes(ps[1..]);
    }
  }

  lemma {:induction false} CoverAppend(ps: seq<seq<nat>>, m: nat, x: nat)
    requires m < |ps|
    ensures AllIndices(ps[m := ps[m] + [x]]) == AllIndices(ps) + multiset{x}
  {
    if m > 0 {
      CoverAppend(ps[1..], m - 1, x);
      assert ps[m := ps[m] + [x]][1..] == ps[1..][m - 1 := ps[m] + [x]];
    } else {
      assert ps[m := ps[m] + [x]][1..] == ps[1..];
    }
  }

  /** With bias above every load, the smaller biased sum has no more items. */
  lemma {:induction false} BiasOrdersByCount(bias: nat, a: nat, b: nat, loadA: int, loadB: int)
    requires 0 <= loadA < bias && 0 <= loadB < bias
    requires loadA + bias * a <= loadB + bias * b
    ensures a <= b
  {
    MulStrict(b, a, bias);
  }

  lemma {:induction false} SumFloor(s: seq<int>, q: int)
    requires forall a :: 0 <= a < |s| ==> s[a] >= q
    ensures Sum(s) >= |s| * q
  {
    if s != [] {
      SumFloor(s[..|s| - 1], q);
      MulSucc(|s| - 1, q);
    }
  }

  lemma OneLow(s: seq<int>, q: int, i: nat)
    requires i < |s| && s[i] < q && forall a :: 0 <= a < |s| ==> s[a] <= q
    ensures Sum(s) < |s| * q
  {
    SumRemove(s, i);
    SumCeiling(Remove(s, i), q);
    MulSucc(|s| - 1, q);
  }

  lemma OneHigh(s: seq<int>, q: int, i: nat)
    requires i < |s| && s[i] > q && forall a :: 0 <= a < |s| ==> s[a] >= q
    ensures Sum(s) > |s| * q
  {
    SumRemove(s, i);
    SumFloor(Remove(s, i), q);
    MulSucc(|s| - 1, q);
  }

  /** Sizes that differ by at most one and average to q are all q. */
  lemma EvenSizes(s: seq<int>, q: int, i: nat)
    requires i < |s| && Sum(s) == |s| * q
    requires forall a, b :: 0 <= a < |s| && 0 <= b < |s| ==> s[a] <= s[b] + 1
    ensures s[i] == q
  {
    if s[i] < q {
      OneLow(s, q, i);
    } else if s[i] > q {
      OneHigh(s, q, i);
    }
  }

  /** State of the greedy loop after the first `i` items. */
  ghost predicate GreedyState(seqlens: seq<nat>, k: nat, bias: nat, i: nat, ps: seq<seq<nat>>, sums: seq<int>) {
    && |ps| == |sums| == k && i <= |seqlens|
    && ExactCover(ps, i)
    && (forall p :: 0 <= p < k ==> GreedyPart(seqlens, bias, i, ps[p], sums[p]))
  }

  ghost predicate GreedyPart(seqlens: seq<nat>, bias: nat, i: nat, p: seq<nat>, sum: int)
    requires i <= |seqlens|
  {
    && sum == Load(seqlens, p) + bias * |p|
    && 0 <= Load(seqlens, p) <= Sum(seqlens[..i])
    && AscendingBelow(p, i)
  }

  ghost predicate AscendingBelow(p: seq<nat>, i: nat) {
    StrictlyAscending(p) && forall x :: x in p ==> x < i
  }

  ghost predicate CountsWithinOne(ps: seq<seq<nat>>) {
    forall p, q :: 0 <= p < |ps| && 0 <= q < |ps| ==> |ps[p]| <= |ps[q]| + 1
  }

  ghost predicate LoadsWithin(seqlens: seq<nat>, ps: seq<seq<nat>>, bound: int) {
    forall p, q :: 0 <= p < |ps| && 0 <= q < |ps| ==> Load(seqlens, ps[p]) - Load(seqlens, ps[q]) <= bound
  }

  /** The part of an ascending list that is below `j`. */
  ghost function Below(p: seq<nat>, j: nat): seq<nat> {
    if p == [] || p[|p| - 1] < j then p else Below(p[..|p| - 1], j)
  }

  /** Where the next item rather goes: with equal sizes to fewer items first, then to the smaller load, then earlier. */
  ghost predicate Prefers(seqlens: seq<nat>, equalSize: bool, a: seq<nat>, b: seq<nat>, earlier: bool) {
    if equalSize && |a| != |b| then |a| < |b|
    else Load(seqlens, a) < Load(seqlens, b) || (Load(seqlens, a) == Load(seqlens, b) && earlier)
  }

  /** Item `j` is in the part it rather goes to, given where the items before it are. */
  ghost predicate WellPlaced(seqlens: seq<nat>, equalSize: bool, ps: seq<seq<nat>>, j: nat) {
    exists m: nat :: m < |ps| && j in ps[m] && PlaceOf(seqlens, equalSize, ps, j, m)
  }

  ghost predicate PlaceOf(seqlens: seq<nat>, equalSize: bool, ps: seq<seq<nat>>, j: nat, m: nat)
    requires m < |ps|
  {
    forall q: nat :: q < |ps| ==> Prefers(seqlens, equalSize, Below(ps[m], j), Below(ps[q], j), m <= q)
  }

  /** Every item went where it should when it came. */
  ghost predicate Greedy(seqlens: seq<nat>, equalSize: bool, ps: seq<seq<nat>>, i: nat) {
    forall j: nat :: j < i ==> WellPlaced(seqlens, equalSize, ps, j)
  }

  lemma AllBelow(p: seq<nat>, i: nat)
    requires AscendingBelow(p, i)
    ensures Below(p, i) == p
  {
    if p != [] { assert p[|p| - 1] in p; }
  }

  lemma BelowLater(p: seq<nat>, i: nat, j: nat)
    requires j <= i
    ensures Below(p + [i], j) == Below(p, j)
  {
    assert (p + [i])[..|p|] == p;
  }

  lemma StillPlaced(seqlens: seq<nat>, equalSize: bool, ps: seq<seq<nat>>, i: nat, m: nat, j: nat)
    requires m < |ps| && j < i && WellPlaced(seqlens, equalSize, ps, j)
    ensures WellPlaced(seqlens, equalSize, ps[m := ps[m] + [i]], j)
  {
    var ps' := ps[m := ps[m] + [i]];
    var at: nat :| at < |ps| && j in ps[at] && PlaceOf(seqlens, equalSize, ps, j, at);
    forall q: nat | q < |ps| ensures Below(ps'[q], j) == Below(ps[q], j) {
      if q == m { BelowLater(ps[m], i, j); }
    }
    assert j in ps'[at] && PlaceOf(seqlens, equalSize, ps', j, at);
  }

  lemma NewlyPlaced(seqlens: seq<nat>, equalSize: bool, ps: seq<seq<nat>>, i: nat, m: nat)
    requires m < |ps| && forall p :: 0 <= p < |ps| ==> AscendingBelow(ps[p], i)
    requires forall q: nat :: q < |ps| ==> Prefers(seqlens, equalSize, ps[m], ps[q], m <= q)
    ensures WellPlaced(seqlens, equalSize, ps[m := ps[m] + [i]], i)
  {
    var ps' := ps[m := ps[m] + [i]];
    forall q: nat | q < |ps| ensures Below(ps'[q], i) == ps[q] {
      AllBelow(ps[q], i);
      BelowLater(ps[q], i, i);
    }
    assert i in ps'[m] && PlaceOf(seqlens, equalSize, ps', i, m);
  }

  lemma GreedyOn(seqlens: seq<nat>, equalSize: bool, ps: seq<seq<nat>>, i: nat, m: nat)
    requires m < |ps| && forall p :: 0 <= p < |ps| ==> AscendingBelow(ps[p], i)
    requires Greedy(seqlens, equalSize, ps, i)
    requires forall q: nat :: q < |ps| ==> Prefers(seqlens, equalSize, ps[m], ps[q], m <= q)
    ensures Greedy(seqlens, equalSize, ps[m := ps[m] + [i]], i + 1)
  {
    var ps' := ps[m := ps[m] + [i]];
    forall j: nat | j < i + 1 ensures WellPlaced(seqlens, equalSize, ps', j) {
      if j < i { StillPlaced(seqlens, equalSize, ps, i, m, j); } else { NewlyPlaced(seqlens, equalSize, ps, i, m); }
    }
  }

  /** The first least biased sum belongs to the part the next item rather goes to. */
  lemma LeastIsPreferred(seqlens: seq<nat>, k: nat, equalSize: bool, i: nat, ps: seq<seq<nat>>, sums: seq<int>,
                         m: nat)
    requires GreedyState(seqlens, k, Bias(seqlens, equalSize), i, ps, sums)
    requires m < k && (forall j :: 0 <= j < k ==> sums[m] <= sums[j]) && forall j :: 0 <= j < m ==> sums[m] < sums[j]
    ensures forall q: nat :: q < k ==> Prefers(seqlens, equalSize, ps[m], ps[q], m <= q)
  {
    SumNonNegative(seqlens);
    if equalSize { GreedyPicksFewest(seqlens, k, Bias(seqlens, true), i, ps, sums, m); }
    forall q: nat | q < k ensures Prefers(seqlens, equalSize, ps[m], ps[q], m <= q) {
      PreferredOf(seqlens, equalSize, Bias(seqlens, equalSize), ps[m], ps[q], sums[m], sums[q], m <= q);
    }
  }

  lemma PreferredOf(seqlens: seq<nat>, equalSize: bool, bias: nat, a: seq<nat>, b: seq<nat>, sumA: int, sumB: int,
                    earlier: bool)
    requires sumA == Load(seqlens, a) + bias * |a| && sumB == Load(seqlens, b) + bias * |b|
    requires sumA <= sumB && (!earlier ==> sumA < sumB) && (equalSize ==> |a| <= |b|) && (!equalSize ==> bias == 0)
    ensures Prefers(seqlens, equalSize, a, b, earlier)
  {
  }

  method LeastSum(sums: seq<int>) returns (m: nat)
    requires sums != []
    ensures m < |sums| && forall j :: 0 <= j < |sums| ==> sums[m] <= sums[j]
    ensures forall j :: 0 <= j < m ==> sums[m] < sums[j]
  {
    var minIdx: Option<nat> := None;
    for j := 0 to |sums|
      invariant minIdx.None? <==> j == 0
      invariant minIdx.Some? ==> minIdx.value < j
      invariant minIdx.Some? ==> forall x :: 0 <= x < j ==> sums[minIdx.value] <= sums[x]
      invariant minIdx.Some? ==> forall x :: 0 <= x < minIdx.value ==> sums[minIdx.value] < sums[x]
    {
      if minIdx.None? || sums[j] < sums[minIdx.value] {
        minIdx := Some(j);
      }
    }
    m := minIdx.value;
  }

  lemma GreedyLoads(seqlens: seq<nat>, k: nat, bias: nat, i: nat, ps: seq<seq<nat>>, sums: seq<int>, m: nat, p: nat,
                    ps': seq<seq<nat>>, sums': seq<int>)
    requires GreedyState(seqlens, k, bias, i, ps, sums) && i < |seqlens| && m < k && p < k
    requires ps' == ps[m := ps[m] + [i]] && sums' == sums[m := sums[m] + seqlens[i] + bias]
    ensures && sums'[p] == Load(seqlens, ps'[p]) + bias * |ps'[p]|
            && 0 <= Load(seqlens, ps'[p]) <= Sum(seqlens[..i + 1])
  {
    LoadAppend(seqlens, ps[m], i);
    assert seqlens[..i + 1] == seqlens[..i] + [seqlens[i]];
    assert bias * (|ps[m]| + 1) == bias * |ps[m]| + bias;
  }

  lemma AscendingAppend(p: seq<nat>, i: nat)
    requires AscendingBelow(p, i)
    ensures AscendingBelow(p + [i], i + 1)
  {
    assert forall a :: 0 <= a < |p| ==> p[a] in p;
  }

  /** Putting item i into part m keeps the bookkeeping. */
  lemma GreedyStep(seqlens: seq<nat>, k: nat, bias: nat, i: nat, ps: seq<seq<nat>>, sums: seq<int>, m: nat)
    requires GreedyState(seqlens, k, bias, i, ps, sums) && i < |seqlens| && m < k
    ensures GreedyState(seqlens, k, bias, i + 1, ps[m := ps[m] + [i]], sums[m := sums[m] + seqlens[i] + bias])
  {
    var ps', sums' := ps[m := ps[m] + [i]], sums[m := sums[m] + seqlens[i] + bias];
    GreedyCovers(ps, m, i);
    forall p | 0 <= p < k ensures GreedyPart(seqlens, bias, i + 1, ps'[p], sums'[p]) {
      AscendingAppend(ps[m], i);
      GreedyLoads(seqlens, k, bias, i, ps, sums, m, p, ps', sums');
    }
  }

  lemma GreedyCovers(ps: seq<seq<nat>>, m: nat, i: nat)
    requires m < |ps| && ExactCover(ps, i)
    ensures ExactCover(ps[m := ps[m] + [i]], i + 1)
  {
    CoverAppend(ps, m, i);
  }

  lemma {:induction false} SumPrefix(seqlens: seq<nat>, i: nat)
    requires i <= |seqlens|
    ensures 0 <= Sum(seqlens[..i]) <= Sum(seqlens)
    decreases |seqlens| - i
  {
    if i < |seqlens| {
      SumPrefix(seqlens, i + 1);
      assert seqlens[..i + 1] == seqlens[..i] + [seqlens[i]];
      SumNonNegative(seqlens[..i]);
    } else {
      assert seqlens[..i] == seqlens;
      SumNonNegative(seqlens);
    }
  }

  lemma {:induction false} SumNonNegative(s: seq<nat>)
    ensures Sum(s) >= 0
  {
    if s != [] { SumNonNegative(s[..|s| - 1]); }
  }

  /** The biased minimum is a part with the fewest items, so counts stay within one of each other. */
  lemma GreedyPicksFewest(seqlens: seq<nat>, k: nat, bias: nat, i: nat, ps: seq<seq<nat>>, sums: seq<int>, m: nat)
    requires GreedyState(seqlens, k, bias, i, ps, sums) && bias == Sum(seqlens) + 1
    requires m < k && forall j :: 0 <= j < k ==> sums[m] <= sums[j]
    ensures forall q :: 0 <= q < k ==> |ps[m]| <= |ps[q]|
  {
    SumPrefix(seqlens, i);
    forall q | 0 <= q < k ensures |ps[m]| <= |ps[q]| {
      BiasOrdersByCount(bias, |ps[m]|, |ps[q]|, Load(seqlens, ps[m]), Load(seqlens, ps[q]));
    }
  }

  /** Added to every length when equal sizes are wanted: more than all lengths together. */
  function Bias(seqlens: seq<nat>, equalSize: bool): nat {
    SumNonNegative(seqlens);
    if equalSize then Sum(seqlens) + 1 else 0
  }

  /** The assignment loop: item counts stay within one (biased), or loads within the longest item (unbiased). */
  method GreedyAssign(seqlens: seq<nat>, k: nat, equalSize: bool) returns (ps: seq<seq<nat>>, sums: seq<int>)
    requires k > 0
    ensures GreedyState(seqlens, k, Bias(seqlens, equalSize), |seqlens|, ps, sums)
    ensures equalSize ==> CountsWithinOne(ps)
    ensures !equalSize ==> LoadsWithin(seqlens, ps, Longest(seqlens))
    ensures Greedy(seqlens, equalSize, ps, |seqlens|)
  {
    var bias := Bias(seqlens, equalSize);
    ps, sums := seq(k, _ => []), seq(k, _ => 0);
    EmptyParts(seqlens, k, bias);
    for i := 0 to |seqlens|
      invariant GreedyState(seqlens, k, bias, i, ps, sums)
      invariant equalSize ==> CountsWithinOne(ps)
      invariant !equalSize ==> LoadsWithin(seqlens, ps, Longest(seqlens))
      invariant Greedy(seqlens, equalSize, ps, i)
    {
      var m := LeastSum(sums);
      GreedyStep(seqlens, k, bias, i, ps, sums, m);
      LeastIsPreferred(seqlens, k, equalSize, i, ps, sums, m);
      GreedyOn(seqlens, equalSize, ps, i, m);
      if equalSize {
        GreedyPicksFewest(seqlens, k, bias, i, ps, sums, m);
      } else {
        LoadAppend(seqlens, ps[m], i);
      }
      ps, sums := ps[m := ps[m] + [i]], sums[m := sums[m] + seqlens[i] + bias];
    }
  }

  lemma {:induction false} NoIndices(ps: seq<seq<nat>>)
    requires forall p :: 0 <= p < |ps| ==> ps[p] == []
    ensures AllIndices(ps) == multiset{}
  {
    if ps != [] { NoIndices(ps[1..]); }
  }

  lemma EmptyParts(seqlens: seq<nat>, k: nat, bias: nat)
    ensures GreedyState(seqlens, k, bias, 0, seq(k, _ => []), seq(k, _ => 0))
    ensures LoadsWithin(seqlens, seq(k, _ => []), Longest(seqlens))
  {
    NoIndices(seq(k, _ => []));
  }

  /** `greedy_partition`: with equal sizes demanded it fails exactly when k does not divide the count. */
  method GreedyPartition(seqlens: seq<nat>, k: nat, equalSize: bool) returns (out: Option<seq<seq<nat>>>)
    requires k > 0
    ensures out.None? <==> equalSize && |seqlens| % k != 0
    ensures out.Some? ==>
      && |out.value| == k && ExactCover(out.value, |seqlens|)
      && (forall p :: 0 <= p < k ==> StrictlyAscending(out.value[p]))
      && (equalSize ==> forall p :: 0 <= p < k ==> |out.value[p]| * k == |seqlens|)
      && (!equalSize ==> LoadsWithin(seqlens, out.value, Longest(seqlens)))
      && Greedy(seqlens, equalSize, out.value, |seqlens|)
  {
    var ps, sums := GreedyAssign(seqlens, k, equalSize);
    if equalSize {
      var ok := SizesMatch(ps, k, |seqlens|);
      EqualCounts(ps, k, |seqlens|);
      if !ok { return None; }
    }
    out := Some(ps);
  }

  lemma EqualCounts(ps: seq<seq<nat>>, k: nat, n: nat)
    requires k > 0 && |ps| == k && ExactCover(ps, n) && CountsWithinOne(ps)
    ensures (forall i :: 0 <= i < k ==> |ps[i]| * k == n) <==> n % k == 0
  {
    if n % k == 0 {
      var q := n / k;
      assert n == k * q;
      forall i | 0 <= i < k ensures |ps[i]| * k == n { CountIsQuotient(ps, k, n, q, i); }
    } else {
      DivCancel(|ps[0]|, k);
    }
  }

  lemma CountIsQuotient(ps: seq<seq<nat>>, k: nat, n: nat, q: nat, i: nat)
    requires |ps| == k && i < k && n == k * q && ExactCover(ps, n) && CountsWithinOne(ps)
    ensures |ps[i]| == q
  {
    CoverSize(ps);
    CoverCardinality(ps, n);
    EvenSizes(Sizes(ps), q, i);
  }

  lemma CoverCardinality(ps: seq<seq<nat>>, n: nat)
    requires ExactCover(ps, n)
    ensures |AllIndices(ps)| == n
  {
    RangeCardinality(AllIndices(ps), n);
  }

  lemma {:induction false} RangeCardinality(m: multiset<nat>, n: nat)
    requires forall x: nat :: m[x] == if x < n then 1 else 0
    ensures |m| == n
  {
    if n == 0 {
      assert m == multiset{};
    } else {
      RangeCardinality(m - multiset{n - 1}, n - 1);
      assert m == (m - multiset{n - 1}) + multiset{n - 1};
    }
  }
}
