/** The ordering step of a multi-version lineage: a stable sort driven by a
    Java-style comparator (negative, zero or positive), as `Stream.sorted`
    with a `Comparator` is. */
module Ordering {

  /** `a` may come before `b`. */
  predicate Precedes<T>(cmp: (T, T) -> int, a: T, b: T) {
    cmp(a, b) <= 0
  }

  /** The comparator contract of `java.util.Comparator`, as far as sorting
      needs it: any two values are comparable, and "may come before" is
      transitive. */
  ghost predicate IsTotalPreorder<T(!new)>(cmp: (T, T) -> int) {
    && (forall a, b :: Precedes(cmp, a, b) || Precedes(cmp, b, a))
    && (forall a, b, c :: Precedes(cmp, a, b) && Precedes(cmp, b, c) ==> Precedes(cmp, a, c))
  }

  /** No ties among the elements of `s`: two of them compare as zero only
      when they are equal. Values outside `s` may tie, as they do under a
      comparator that looks at some fields only. */
  ghost predicate IsTieFreeOn<T>(cmp: (T, T) -> int, s: seq<T>) {
    forall a, b :: a in s && b in s && Precedes(cmp, a, b) && Precedes(cmp, b, a) ==> a == b
  }

  /** Having no ties carries over to a sequence whose elements all occur
      in `s`. */
  lemma TieFreeOnSubset<T>(cmp: (T, T) -> int, s: seq<T>, t: seq<T>)
    requires IsTieFreeOn(cmp, s)
    requires forall x :: x in t ==> x in s
    ensures IsTieFreeOn(cmp, t)
  {
  }

  /** A comparator that compares two members as equal only when their keys
      are equal (a creation timestamp, say, of any type) has no ties among
      members whose keys are pairwise distinct. Nothing is assumed about
      values outside `s`. */
  lemma DistinctKeysNoTies<T, K>(cmp: (T, T) -> int, key: T -> K, s: seq<T>)
    requires forall i, j ::
               (0 <= i < |s| && 0 <= j < |s| && Precedes(cmp, s[i], s[j]) && Precedes(cmp, s[j], s[i]))
               ==> key(s[i]) == key(s[j])
    requires forall i, j :: 0 <= i < j < |s| && s[i] != s[j] ==> key(s[i]) != key(s[j])
    ensures IsTieFreeOn(cmp, s)
  {
    forall a, b | a in s && b in s && Precedes(cmp, a, b) && Precedes(cmp, b, a)
      ensures a == b
    {
      var i :| 0 <= i < |s| && s[i] == a;
      var j :| 0 <= j < |s| && s[j] == b;
      assert key(s[i]) == key(s[j]);
    }
  }

  ghost predicate SortedBy<T>(cmp: (T, T) -> int, s: seq<T>) {
    forall i, j :: 0 <= i < j < |s| ==> Precedes(cmp, s[i], s[j])
  }

  /** Inserts `x` in front of the first element it may precede; `x` stays
      ahead of every element that compares equal to it. */
  function Insert<T>(cmp: (T, T) -> int, x: T, s: seq<T>): (r: seq<T>)
    ensures multiset(r) == multiset(s) + multiset{x}
    ensures |r| == |s| + 1
  {
    if |s| == 0 then [x]
    else if Precedes(cmp, x, s[0]) then [x] + s
    else
      assert s == [s[0]] + s[1..];
      [s[0]] + Insert(cmp, x, s[1..])
  }

  /** Stable insertion sort: ties keep their input order. */
  function Sort<T>(cmp: (T, T) -> int, s: seq<T>): (r: seq<T>)
    ensures multiset(r) == multiset(s)
    ensures |r| == |s|
  {
    if |s| == 0 then []
    else
      assert s == [s[0]] + s[1..];
      Insert(cmp, s[0], Sort(cmp, s[1..]))
  }

  lemma {:induction false} InsertSorted<T(!new)>(cmp: (T, T) -> int, x: T, s: seq<T>)
    requires IsTotalPreorder(cmp)
    requires SortedBy(cmp, s)
    ensures SortedBy(cmp, Insert(cmp, x, s))
  {
    if |s| == 0 {
    } else if Precedes(cmp, x, s[0]) {
      forall k | 0 <= k < |s|
        ensures Precedes(cmp, x, s[k])
      {
        if k > 0 {
          assert Precedes(cmp, s[0], s[k]);
        }
      }
      ConsSorted(cmp, x, s);
    } else {
      var t := Insert(cmp, x, s[1..]);
      SortedTail(cmp, s);
      InsertSorted(cmp, x, s[1..]);
      HeadPrecedesInsert(cmp, x, s);
      ConsSorted(cmp, s[0], t);
    }
  }

  /** An element that precedes every element of an ordered sequence can be
      put in front of it. */
  lemma ConsSorted<T>(cmp: (T, T) -> int, h: T, t: seq<T>)
    requires SortedBy(cmp, t)
    requires forall k :: 0 <= k < |t| ==> Precedes(cmp, h, t[k])
    ensures SortedBy(cmp, [h] + t)
  {
    var r := [h] + t;
    forall i, j | 0 <= i < j < |r|
      ensures Precedes(cmp, r[i], r[j])
    {
      assert r[j] == t[j - 1];
      if i > 0 {
        assert r[i] == t[i - 1];
      }
    }
  }

  /** When `x` goes after the head of an ordered `s`, the head may precede
      everything it is inserted among. */
  lemma HeadPrecedesInsert<T(!new)>(cmp: (T, T) -> int, x: T, s: seq<T>)
    requires IsTotalPreorder(cmp)
    requires SortedBy(cmp, s)
    requires |s| > 0 && !Precedes(cmp, x, s[0])
    ensures forall k :: 0 <= k < |Insert(cmp, x, s[1..])| ==> Precedes(cmp, s[0], Insert(cmp, x, s[1..])[k])
  {
    var t := Insert(cmp, x, s[1..]);
    assert Precedes(cmp, s[0], x);
    forall k | 0 <= k < |t|
      ensures Precedes(cmp, s[0], t[k])
    {
      assert t[k] in multiset(s[1..]) + multiset{x} by {
        assert t[k] in multiset(t);
      }
      if t[k] != x {
        assert t[k] in s[1..];
        var m :| 0 <= m < |s[1..]| && s[1..][m] == t[k];
        assert s[1..][m] == s[m + 1];
      }
    }
  }

  /** Under a comparator honouring its contract the result is ordered. */
  lemma {:induction false} SortSorted<T(!new)>(cmp: (T, T) -> int, s: seq<T>)
    requires IsTotalPreorder(cmp)
    ensures SortedBy(cmp, Sort(cmp, s))
  {
    if |s| > 0 {
      SortSorted(cmp, s[1..]);
      InsertSorted(cmp, s[0], Sort(cmp, s[1..]));
    }
  }

  /** `m` is an element of `s` that every element of `s` may precede. */
  ghost predicate IsLatest<T>(cmp: (T, T) -> int, m: T, s: seq<T>) {
    m in s && forall x :: x in s ==> Precedes(cmp, x, m)
  }

  /** The last element of an ordered sequence comes after every element. */
  lemma SortedLastIsLatest<T(!new)>(cmp: (T, T) -> int, s: seq<T>)
    requires IsTotalPreorder(cmp)
    requires SortedBy(cmp, s) && |s| > 0
    ensures forall x :: x in s ==> Precedes(cmp, x, s[|s| - 1])
  {
    forall x | x in s
      ensures Precedes(cmp, x, s[|s| - 1])
    {
      var i :| 0 <= i < |s| && s[i] == x;
      if i == |s| - 1 {
        assert Precedes(cmp, x, x) || Precedes(cmp, x, x);
      }
    }
  }

  /** Being latest depends only on the elements, not on their order. */
  lemma LatestOfPermutation<T>(cmp: (T, T) -> int, m: T, a: seq<T>, b: seq<T>)
    requires multiset(a) == multiset(b)
    requires IsLatest(cmp, m, a)
    ensures IsLatest(cmp, m, b)
  {
    assert m in multiset(a);
    forall x | x in b
      ensures Precedes(cmp, x, m)
    {
      assert x in multiset(b);
    }
  }

  /** Without ties among its elements there is only one ordered arrangement
      of a collection, so the sort result does not depend on the input order. */
  lemma {:induction false} SortedPermutationUnique<T>(cmp: (T, T) -> int, a: seq<T>, b: seq<T>)
    requires IsTieFreeOn(cmp, a)
    requires SortedBy(cmp, a) && SortedBy(cmp, b)
    requires multiset(a) == multiset(b)
    ensures a == b
  {
    if |a| == 0 {
      assert |b| == |multiset(b)| == 0;
    } else {
      assert |b| == |a| by {
        assert |b| == |multiset(b)| == |multiset(a)| == |a|;
      }
      assert a[0] == b[0] by {
        SortedHeadsEqual(cmp, a, b);
      }
      assert multiset(a[1..]) == multiset(b[1..]) by {
        TailMatchesRemoval(a, b, 0);
        assert RemoveAt(b, 0) == b[1..];
      }
      SortedTail(cmp, a);
      SortedTail(cmp, b);
      TieFreeOnSubset(cmp, a, a[1..]);
      SortedPermutationUnique(cmp, a[1..], b[1..]);
      assert a == [a[0]] + a[1..] && b == [b[0]] + b[1..];
    }
  }

  /** The tail of an ordered sequence is ordered. */
  lemma SortedTail<T>(cmp: (T, T) -> int, s: seq<T>)
    requires SortedBy(cmp, s) && |s| > 0
    ensures SortedBy(cmp, s[1..])
  {
    forall i, j | 0 <= i < j < |s| - 1
      ensures Precedes(cmp, s[1..][i], s[1..][j])
    {
      assert s[1..][i] == s[i + 1] && s[1..][j] == s[j + 1];
    }
  }

  /** Two ordered permutations without ties start with the same element. */
  lemma SortedHeadsEqual<T>(cmp: (T, T) -> int, a: seq<T>, b: seq<T>)
    requires IsTieFreeOn(cmp, a)
    requires SortedBy(cmp, a) && SortedBy(cmp, b)
    requires multiset(a) == multiset(b)
    requires |a| > 0 && |b| > 0
    ensures a[0] == b[0]
  {
    assert a[0] in multiset(b);
    var i :| 0 <= i < |b| && b[i] == a[0];
    assert b[0] in multiset(a);
    var j :| 0 <= j < |a| && a[j] == b[0];
    assert Precedes(cmp, b[0], b[i]) || i == 0;
    assert Precedes(cmp, a[0], a[j]) || j == 0;
  }

  lemma TailMultiset<T>(s: seq<T>)
    requires |s| > 0
    ensures multiset(s[1..]) == multiset(s) - multiset{s[0]}
  {
    assert s == [s[0]] + s[1..];
    assert multiset(s) == multiset{s[0]} + multiset(s[1..]);
  }

  /** Reordering the input of the sort does not change its output, for a
      comparator honouring its contract with no ties among the elements. */
  lemma SortIgnoresInputOrder<T(!new)>(cmp: (T, T) -> int, s1: seq<T>, s2: seq<T>)
    requires IsTotalPreorder(cmp) && IsTieFreeOn(cmp, s1)
    requires multiset(s1) == multiset(s2)
    ensures Sort(cmp, s1) == Sort(cmp, s2)
  {
    SortSorted(cmp, s1);
    SortSorted(cmp, s2);
    forall x | x in Sort(cmp, s1)
      ensures x in s1
    {
      assert x in multiset(Sort(cmp, s1));
    }
    TieFreeOnSubset(cmp, s1, Sort(cmp, s1));
    SortedPermutationUnique(cmp, Sort(cmp, s1), Sort(cmp, s2));
  }

  /** `s` without its element at `k`. */
  function RemoveAt<T>(s: seq<T>, k: nat): (r: seq<T>)
    requires k < |s|
    ensures |r| == |s| - 1
    ensures forall i :: 0 <= i < k ==> r[i] == s[i]
    ensures forall i :: k <= i < |r| ==> r[i] == s[i + 1]
    ensures multiset{s[k]} + multiset(r) == multiset(s)
  {
    assert s == s[..k] + [s[k]] + s[k + 1..];
    s[..k] + s[k + 1..]
  }

  /** `y` holds `g` of each element of `x`, position by position. */
  ghost predicate ImagesOf<T, U>(g: T -> U, x: seq<T>, y: seq<U>) {
    |y| == |x| && forall i :: 0 <= i < |x| ==> y[i] == g(x[i])
  }

  /** Removing the same position from both sides keeps the images. */
  lemma ImagesOfRemoveAt<T, U>(g: T -> U, x: seq<T>, y: seq<U>, k: nat)
    requires ImagesOf(g, x, y) && k < |x|
    ensures ImagesOf(g, RemoveAt(x, k), RemoveAt(y, k))
  {
    var rx := RemoveAt(x, k);
    var ry := RemoveAt(y, k);
    forall i | 0 <= i < |rx|
      ensures ry[i] == g(rx[i])
    {
      if i >= k {
        assert rx[i] == x[i + 1] && ry[i] == y[i + 1];
      }
    }
  }

  /** Taking the first element off one permutation and the same element
      off the other leaves permutations. */
  lemma TailMatchesRemoval<T>(x1: seq<T>, x2: seq<T>, k: nat)
    requires multiset(x1) == multiset(x2)
    requires |x1| > 0 && k < |x2| && x2[k] == x1[0]
    ensures multiset(x1[1..]) == multiset(RemoveAt(x2, k))
  {
    TailMultiset(x1);
  }

  /** Pointwise images of two permutations are permutations: reordering
      the `x`s only reorders their images. */
  lemma {:induction false} PermutedImages<T, U>(g: T -> U, x1: seq<T>, y1: seq<U>, x2: seq<T>, y2: seq<U>)
    requires multiset(x1) == multiset(x2)
    requires ImagesOf(g, x1, y1) && ImagesOf(g, x2, y2)
    ensures multiset(y1) == multiset(y2)
    decreases |x1|
  {
    if |x1| == 0 {
      assert |x2| == |multiset(x2)| == 0;
    } else {
      assert x1[0] in multiset(x2);
      var k :| 0 <= k < |x2| && x2[k] == x1[0];
      TailMatchesRemoval(x1, x2, k);
      ImagesOfRemoveAt(g, x2, y2, k);
      assert ImagesOf(g, x1[1..], y1[1..]);
      PermutedImages(g, x1[1..], y1[1..], RemoveAt(x2, k), RemoveAt(y2, k));
      HeadAndRest(y1, y2, k);
    }
  }

  /** A sequence whose head is `y2[k]` and whose tail permutes the rest of
      `y2` is a permutation of `y2`. */
  lemma HeadAndRest<U>(y1: seq<U>, y2: seq<U>, k: nat)
    requires |y1| > 0 && k < |y2| && y1[0] == y2[k]
    requires multiset(y1[1..]) == multiset(RemoveAt(y2, k))
    ensures multiset(y1) == multiset(y2)
  {
    assert y1 == [y1[0]] + y1[1..];
  }
}
