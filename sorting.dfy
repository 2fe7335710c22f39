/** Ascending sort of reals, the order `[...xs].sort((a, b) => a - b)` and
    numpy's `np.sort` produce, with the facts about sorted sequences that
    quantiles and value-at-risk rest on. */
module Sorting {
  import opened Stats

  predicate SortedAsc(s: seq<real>)
  {
    forall i, j :: 0 <= i <= j < |s| ==> s[i] <= s[j]
  }

  /** A value no larger than the head of a sorted sequence can go in front of it. */
  lemma SortedCons(x: real, s: seq<real>)
    requires SortedAsc(s) && (s == [] || x <= s[0])
    ensures SortedAsc([x] + s)
  {
    forall i, j | 0 <= i <= j < |s| + 1 ensures ([x] + s)[i] <= ([x] + s)[j] {
      if 0 < i {
        assert ([x] + s)[i] == s[i - 1];
      }
      if 0 < j {
        assert ([x] + s)[j] == s[j - 1];
      }
    }
  }

  function Insert(x: real, s: seq<real>): (r: seq<real>)
    requires SortedAsc(s)
    ensures SortedAsc(r)
    ensures multiset(r) == multiset(s) + multiset{x}
    ensures |r| == |s| + 1
    ensures r[0] == if s == [] || x <= s[0] then x else s[0]
  {
    if s == [] then [x]
    else if x <= s[0] then SortedCons(x, s); [x] + s
    else
      assert s == [s[0]] + s[1..];
      var rest := Insert(x, s[1..]);
      assert s[0] <= rest[0];
      SortedCons(s[0], rest);
      [s[0]] + rest
  }

  /** The ascending rearrangement of `xs`. */
  function Sort(xs: seq<real>): (r: seq<real>)
    ensures SortedAsc(r)
    ensures multiset(r) == multiset(xs)
    ensures |r| == |xs|
  {
    if xs == [] then []
    else
      assert xs == [xs[0]] + xs[1..];
      Insert(xs[0], Sort(xs[1..]))
  }

  /** Two values already in order stay as they are. */
  lemma SortTwoExample()
    ensures Sort([1.0, 2.0]) == [1.0, 2.0]
  {
    assert [1.0, 2.0][1..] == [2.0];
    assert Sort([2.0]) == [2.0];
  }

  /** Inserting the largest value puts it at the end. */
  lemma InsertLargestExample()
    ensures Insert(3.0, [1.0, 2.0]) == [1.0, 2.0, 3.0]
  {
    assert [1.0, 2.0][1..] == [2.0];
    assert Insert(3.0, [2.0]) == [2.0, 3.0];
  }

  /** The largest of three values moves to the end. */
  lemma SortThreeExample()
    ensures Sort([3.0, 1.0, 2.0]) == [1.0, 2.0, 3.0]
  {
    assert [3.0, 1.0, 2.0][1..] == [1.0, 2.0];
    SortTwoExample();
    InsertLargestExample();
  }

  lemma InMultiset(xs: seq<real>, ys: seq<real>, i: nat)
    requires multiset(xs) == multiset(ys) && i < |xs|
    ensures xs[i] in ys
  {
    assert xs[i] in multiset(xs);
  }

  /** The first and last elements of the sorted sequence are the minimum and the maximum. */
  lemma SortEnds(xs: seq<real>)
    requires |xs| > 0
    ensures Sort(xs)[0] == Min(xs)
    ensures Sort(xs)[|xs| - 1] == Max(xs)
  {
    var s := Sort(xs);
    SortedFirstIsMin(s, xs);
    SortedLastIsMax(s, xs);
  }

  lemma SortedFirstIsMin(s: seq<real>, xs: seq<real>)
    requires |xs| > 0 && SortedAsc(s) && multiset(s) == multiset(xs) && |s| == |xs|
    ensures s[0] == Min(xs)
  {
    InMultiset(s, xs, 0);
    var lo :| 0 <= lo < |xs| && xs[lo] == Min(xs);
    InMultiset(xs, s, lo);
  }

  lemma SortedLastIsMax(s: seq<real>, xs: seq<real>)
    requires |xs| > 0 && SortedAsc(s) && multiset(s) == multiset(xs) && |s| == |xs|
    ensures s[|s| - 1] == Max(xs)
  {
    InMultiset(s, xs, |s| - 1);
    var hi :| 0 <= hi < |xs| && xs[hi] == Max(xs);
    InMultiset(xs, s, hi);
  }

  /** Number of elements strictly below `v`. */
  function CountBelow(xs: seq<real>, v: real): (c: nat)
    ensures c <= |xs|
  {
    if xs == [] then 0
    else (if xs[0] < v then 1 else 0) + CountBelow(xs[1..], v)
  }

  lemma {:induction false} CountBelowAppend(a: seq<real>, b: seq<real>, v: real)
    ensures CountBelow(a + b, v) == CountBelow(a, v) + CountBelow(b, v)
  {
    if a != [] {
      assert (a + b)[1..] == a[1..] + b;
      CountBelowAppend(a[1..], b, v);
    } else {
      assert a + b == b;
    }
  }

  /** Removing the element at index j takes one copy of it out of the multiset. */
  lemma MultisetRemoveAt(b: seq<real>, j: nat)
    requires j < |b|
    ensures multiset(b[..j] + b[j + 1..]) == multiset(b) - multiset{b[j]}
  {
    assert b == b[..j] + [b[j]] + b[j + 1..];
    assert multiset(b) == multiset(b[..j]) + multiset{b[j]} + multiset(b[j + 1..]);
  }

  /** Removing the element at index j lowers the count by one exactly when it is below `v`. */
  lemma CountBelowRemoveAt(b: seq<real>, j: nat, v: real)
    requires j < |b|
    ensures CountBelow(b, v) == CountBelow(b[..j] + b[j + 1..], v) + (if b[j] < v then 1 else 0)
  {
    assert b == b[..j] + [b[j]] + b[j + 1..];
    CountBelowAppend(b[..j], b[j + 1..], v);
    CountBelowAppend(b[..j] + [b[j]], b[j + 1..], v);
    CountBelowAppend(b[..j], [b[j]], v);
    assert CountBelow([b[j]], v) == if b[j] < v then 1 else 0 by {
      assert [b[j]][1..] == [];
    }
  }

  /** Rearranging a sequence does not change how many of its elements lie below `v`. */
  lemma {:induction false} CountBelowPermutation(a: seq<real>, b: seq<real>, v: real)
    requires multiset(a) == multiset(b)
    ensures CountBelow(a, v) == CountBelow(b, v)
    decreases |a|
  {
    if a == [] {
      assert |b| == |multiset(b)| == 0;
    } else {
      assert a[0] in multiset(b);
      var j :| 0 <= j < |b| && b[j] == a[0];
      var rest := b[..j] + b[j + 1..];
      MultisetRemoveAt(b, j);
      assert a == [a[0]] + a[1..];
      assert multiset(a[1..]) == multiset(a) - multiset{a[0]};
      CountBelowPermutation(a[1..], rest, v);
      CountBelowRemoveAt(b, j, v);
    }
  }

  /** In a sorted sequence nothing at or after index k is below s[k]. */
  lemma {:induction false} CountBelowSorted(s: seq<real>, k: nat)
    requires SortedAsc(s) && k < |s|
    ensures CountBelow(s, s[k]) <= k
  {
    if k == 0 {
      CountBelowNone(s, s[0]);
    } else {
      assert SortedAsc(s[1..]) by {
        forall i, j | 0 <= i <= j < |s[1..]| ensures s[1..][i] <= s[1..][j] {
          assert s[1..][i] == s[i + 1] && s[1..][j] == s[j + 1];
        }
      }
      CountBelowSorted(s[1..], k - 1);
      assert s[1..][k - 1] == s[k];
    }
  }

  lemma {:induction false} CountBelowNone(s: seq<real>, v: real)
    requires forall i :: 0 <= i < |s| ==> v <= s[i]
    ensures CountBelow(s, v) == 0
  {
    if s != [] {
      assert forall i :: 0 <= i < |s[1..]| ==> v <= s[1..][i] by {
        forall i | 0 <= i < |s[1..]| ensures v <= s[1..][i] {
          assert s[1..][i] == s[i + 1];
        }
      }
      CountBelowNone(s[1..], v);
    }
  }
}
