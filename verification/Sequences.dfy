/** Sums, counts and permutations of sequences. */
module Sequences {
  import opened Arith

  function Sum(s: seq<int>): int {
    if s == [] then 0 else Sum(s[..|s| - 1]) + s[|s| - 1]
  }

  lemma {:induction false} SumConcat(a: seq<int>, b: seq<int>)
    ensures Sum(a + b) == Sum(a) + Sum(b)
  {
    if b == [] {
      assert a + b == a;
    } else {
      var c, x := b[..|b| - 1], b[|b| - 1];
      assert b == c + [x];
      assert a + b == (a + c) + [x];
      SumConcat(a, c);
    }
  }

  lemma SumSplit(s: seq<int>, i: nat)
    requires i < |s|
    ensures Sum(s) == Sum(s[..i]) + s[i] + Sum(s[i + 1..])
  {
    SumConcat(s[..i] + [s[i]], s[i + 1..]);
    assert s == (s[..i] + [s[i]]) + s[i + 1..];
  }

  lemma SumUpdate(s: seq<int>, i: nat, x: int)
    requires i < |s|
    ensures Sum(s[i := x]) == Sum(s) - s[i] + x
  {
    SumSplit(s, i);
    SumSplit(s[i := x], i);
    assert s[i := x][..i] == s[..i] && s[i := x][i + 1..] == s[i + 1..];
  }

  lemma {:induction false} SumCeiling(s: seq<int>, q: int)
    requires forall a :: 0 <= a < |s| ==> s[a] <= q
    ensures Sum(s) <= |s| * q
  {
    if s != [] {
      SumCeiling(s[..|s| - 1], q);
      MulSucc(|s| - 1, q);
    }
  }

  function Remove<T>(s: seq<T>, i: nat): seq<T>
    requires i < |s|
  {
    s[..i] + s[i + 1..]
  }

  lemma RemoveSnoc<T>(s: seq<T>, i: nat)
    requires i < |s|
    ensures i == |s| - 1 ==> Remove(s, i) == s[..|s| - 1]
    ensures i < |s| - 1 ==> Remove(s, i) == Remove(s[..|s| - 1], i) + [s[|s| - 1]]
  {
  }

  lemma RemoveTail<T>(s: seq<T>, i: nat)
    requires i < |s|
    ensures i == 0 ==> Remove(s, i) == s[1..]
    ensures i > 0 ==> |Remove(s, i)| > 0 && Remove(s, i)[0] == s[0] && Remove(s, i)[1..] == Remove(s[1..], i - 1)
  {
  }

  lemma RemoveMultiset<T>(s: seq<T>, i: nat)
    requires i < |s|
    ensures multiset(s) == multiset(Remove(s, i)) + multiset{s[i]}
  {
    assert s == s[..i] + [s[i]] + s[i + 1..];
  }

  function Insert<T>(s: seq<T>, x: T, i: nat): seq<T>
    requires i <= |s|
  {
    s[..i] + [x] + s[i..]
  }

  lemma InsertMultiset<T>(s: seq<T>, x: T, i: nat)
    requires i <= |s|
    ensures multiset(Insert(s, x, i)) == multiset(s) + multiset{x}
  {
    assert s == s[..i] + s[i..];
  }

  /** Where the first element of a permutation sits in the other sequence. */
  lemma FindFirst<T>(s: seq<T>, t: seq<T>) returns (j: nat)
    requires s != [] && multiset(s) == multiset(t)
    ensures j < |t| && t[j] == s[0] && multiset(s[1..]) == multiset(Remove(t, j))
  {
    assert s[0] in multiset(s);
    assert s[0] in t;
    j :| 0 <= j < |t| && t[j] == s[0];
    RemoveMultiset(t, j);
    assert s == [s[0]] + s[1..];
    assert multiset(s[1..]) == multiset(s) - multiset{s[0]};
    assert multiset(Remove(t, j)) == multiset(t) - multiset{t[j]};
  }

  function Count<T>(s: seq<T>, p: T -> bool): (c: nat)
    ensures c <= |s|
  {
    if s == [] then 0 else Count(s[1..], p) + if p(s[0]) then 1 else 0
  }

  lemma {:induction false} CountConcat<T>(a: seq<T>, b: seq<T>, p: T -> bool)
    ensures Count(a + b, p) == Count(a, p) + Count(b, p)
  {
    if a == [] {
      assert a + b == b;
    } else {
      assert (a + b)[1..] == a[1..] + b;
      CountConcat(a[1..], b, p);
    }
  }

  lemma {:induction false} CountRemove<T>(s: seq<T>, i: nat, p: T -> bool)
    requires i < |s|
    ensures Count(s, p) == Count(Remove(s, i), p) + if p(s[i]) then 1 else 0
  {
    RemoveTail(s, i);
    if i > 0 { CountRemove(s[1..], i - 1, p); }
  }

  lemma {:induction false} CountPermutation<T>(s: seq<T>, t: seq<T>, p: T -> bool)
    requires multiset(s) == multiset(t)
    ensures Count(s, p) == Count(t, p)
  {
    if s == [] {
      assert |multiset(t)| == 0;
    } else {
      var j := FindFirst(s, t);
      CountRemove(t, j, p);
      CountPermutation(s[1..], Remove(t, j), p);
    }
  }

  /** A prefix of hits followed by misses has as many hits as the prefix is long. */
  lemma {:induction false} CountPrefix<T>(s: seq<T>, n: nat, p: T -> bool)
    requires n <= |s|
    requires forall i :: 0 <= i < |s| ==> (p(s[i]) <==> i < n)
    ensures Count(s, p) == n
  {
    if s != [] {
      CountPrefix(s[1..], if n == 0 then 0 else n - 1, p);
    }
  }

  lemma {:induction false} SumRemove(s: seq<int>, i: nat)
    requires i < |s|
    ensures Sum(s) == Sum(Remove(s, i)) + s[i]
  {
    SumSplit(s, i);
    SumConcat(s[..i], s[i + 1..]);
  }

  lemma Twice<T>(s: seq<T>, i: nat, j: nat)
    requires i < j < |s| && s[i] == s[j]
    ensures multiset(s)[s[i]] >= 2
  {
    assert s == s[..i] + [s[i]] + s[i + 1..];
    assert s[j] in s[i + 1..];
  }
}
