/** `Array.prototype.sort` with a comparator, as every sort call in the
    frontend uses it. The language guarantees a stable sort: the result is the
    permutation ordered by the comparator in which equal elements keep their
    input order. `StableSort` is that result, built by insertion from the
    right; `SortInPlace` sorts an array in place and is proved to produce it.

    A comparator returns a number; `cmp(a, b) <= 0` means "a may stay before b". */
module Sorting {

  /** The comparator induces a total preorder (what a JavaScript comparator
      must satisfy for the sort to be well defined). */
  ghost predicate Consistent<T(!new)>(cmp: (T, T) -> real) {
    && (forall a, b :: cmp(a, b) <= 0.0 || cmp(b, a) <= 0.0)
    && (forall a, b, c :: cmp(a, b) <= 0.0 && cmp(b, c) <= 0.0 ==> cmp(a, c) <= 0.0)
  }

  predicate Sorted<T>(s: seq<T>, cmp: (T, T) -> real) {
    forall i, j :: 0 <= i < j < |s| ==> cmp(s[i], s[j]) <= 0.0
  }

  /** Insert `x` into `s`, scanning from the right past every element that
      the comparator puts strictly after `x`. */
  function Insert<T>(x: T, s: seq<T>, cmp: (T, T) -> real): (r: seq<T>)
    ensures |r| == |s| + 1
    ensures multiset(r) == multiset(s) + multiset{x}
    decreases |s|
  {
    if s == [] then [x]
    else if cmp(s[|s| - 1], x) <= 0.0 then s + [x]
    else
      assert s == s[..|s| - 1] + [s[|s| - 1]];
      Insert(x, s[..|s| - 1], cmp) + [s[|s| - 1]]
  }

  /** The stable sort of `s` by `cmp`. */
  function StableSort<T>(s: seq<T>, cmp: (T, T) -> real): (r: seq<T>)
    ensures |r| == |s|
    ensures multiset(r) == multiset(s)
    decreases |s|
  {
    if s == [] then []
    else
      assert s == s[..|s| - 1] + [s[|s| - 1]];
      Insert(s[|s| - 1], StableSort(s[..|s| - 1], cmp), cmp)
  }

  lemma {:induction false} InsertSorted<T(!new)>(x: T, s: seq<T>, cmp: (T, T) -> real)
    requires Consistent(cmp) && Sorted(s, cmp)
    ensures Sorted(Insert(x, s, cmp), cmp)
    decreases |s|
  {
    if s != [] {
      var init, last := s[..|s| - 1], s[|s| - 1];
      if cmp(last, x) <= 0.0 {
        forall i | 0 <= i < |s| ensures cmp(s[i], x) <= 0.0 {
          if i < |s| - 1 {
            assert cmp(s[i], last) <= 0.0;
          }
        }
        SnocSorted(s, x, cmp);
      } else {
        assert Sorted(init, cmp) by {
          forall i, j | 0 <= i < j < |init| ensures cmp(init[i], init[j]) <= 0.0 {
            assert init[i] == s[i] && init[j] == s[j];
          }
        }
        InsertSorted(x, init, cmp);
        forall k | 0 <= k < |init| ensures cmp(init[k], last) <= 0.0 {
          assert init[k] == s[k];
        }
        InsertBounded(x, init, last, cmp);
        SnocSorted(Insert(x, init, cmp), last, cmp);
      }
    }
  }

  /** Appending an element that every element may precede keeps order. */
  lemma SnocSorted<T>(s: seq<T>, y: T, cmp: (T, T) -> real)
    requires Sorted(s, cmp)
    requires forall i :: 0 <= i < |s| ==> cmp(s[i], y) <= 0.0
    ensures Sorted(s + [y], cmp)
  {
    var r := s + [y];
    forall i, j | 0 <= i < j < |r| ensures cmp(r[i], r[j]) <= 0.0 {
      assert r[i] == s[i];
      if j < |s| {
        assert r[j] == s[j];
      }
    }
  }

  /** If `x` and every element of `s` may precede `y`, so may every element
      of `Insert(x, s, cmp)`. */
  lemma InsertBounded<T>(x: T, s: seq<T>, y: T, cmp: (T, T) -> real)
    requires cmp(x, y) <= 0.0
    requires forall k :: 0 <= k < |s| ==> cmp(s[k], y) <= 0.0
    ensures forall i :: 0 <= i < |Insert(x, s, cmp)| ==> cmp(Insert(x, s, cmp)[i], y) <= 0.0
  {
    var r := Insert(x, s, cmp);
    forall i | 0 <= i < |r| ensures cmp(r[i], y) <= 0.0 {
      assert r[i] in multiset(r);
      if r[i] != x {
        assert r[i] in multiset(s);
        var k :| 0 <= k < |s| && s[k] == r[i];
      }
    }
  }

  /** The result of `StableSort` is ordered by the comparator. */
  lemma {:induction false} StableSortSorted<T(!new)>(s: seq<T>, cmp: (T, T) -> real)
    requires Consistent(cmp)
    ensures Sorted(StableSort(s, cmp), cmp)
    decreases |s|
  {
    if s != [] {
      StableSortSorted(s[..|s| - 1], cmp);
      InsertSorted(s[|s| - 1], StableSort(s[..|s| - 1], cmp), cmp);
    }
  }

  /** Sorting a sequence that is already in order changes nothing; in
      particular sorting twice is sorting once, and a comparator that
      always answers 0 leaves the order as it was. */
  lemma {:induction false} SortedUnchanged<T>(s: seq<T>, cmp: (T, T) -> real)
    requires Sorted(s, cmp)
    ensures StableSort(s, cmp) == s
    decreases |s|
  {
    if s != [] {
      var init, last := s[..|s| - 1], s[|s| - 1];
      assert Sorted(init, cmp) by {
        forall i, j | 0 <= i < j < |init| ensures cmp(init[i], init[j]) <= 0.0 {
          assert init[i] == s[i] && init[j] == s[j];
        }
      }
      SortedUnchanged(init, cmp);
      assert StableSort(s, cmp) == Insert(last, init, cmp);
      if init == [] {
        assert s == [last];
      } else {
        assert cmp(s[|init| - 1], s[|s| - 1]) <= 0.0;
        assert Insert(last, init, cmp) == init + [last];
        SplitLast(s);
      }
    }
  }

  lemma SplitLast<T>(s: seq<T>)
    requires |s| > 0
    ensures s == s[..|s| - 1] + [s[|s| - 1]]
  {
  }

  lemma SortIdempotent<T(!new)>(s: seq<T>, cmp: (T, T) -> real)
    requires Consistent(cmp)
    ensures StableSort(StableSort(s, cmp), cmp) == StableSort(s, cmp)
  {
    StableSortSorted(s, cmp);
    SortedUnchanged(StableSort(s, cmp), cmp);
  }

  /** The elements of `s` that the comparator ties with `k`, in order. */
  function TiesOf<T>(s: seq<T>, cmp: (T, T) -> real, k: T): (r: seq<T>)
    ensures |r| <= |s|
    ensures forall e :: e in r ==> e in s && cmp(e, k) <= 0.0 && cmp(k, e) <= 0.0
    decreases |s|
  {
    if s == [] then []
    else
      var last := s[|s| - 1];
      TiesOf(s[..|s| - 1], cmp, k) + (if cmp(last, k) <= 0.0 && cmp(k, last) <= 0.0 then [last] else [])
  }

  /** The elements `cmp` ties with `k`, as a singleton or empty list. */
  function Tied<T>(e: T, cmp: (T, T) -> real, k: T): seq<T> {
    if cmp(e, k) <= 0.0 && cmp(k, e) <= 0.0 then [e] else []
  }

  lemma TiesOfSnoc<T>(a: seq<T>, e: T, cmp: (T, T) -> real, k: T)
    ensures TiesOf(a + [e], cmp, k) == TiesOf(a, cmp, k) + Tied(e, cmp, k)
  {
    assert (a + [e])[..|a + [e]| - 1] == a;
  }

  lemma {:induction false} InsertTies<T(!new)>(x: T, s: seq<T>, cmp: (T, T) -> real, k: T)
    requires Consistent(cmp)
    ensures TiesOf(Insert(x, s, cmp), cmp, k) == TiesOf(s, cmp, k) + Tied(x, cmp, k)
    decreases |s|
  {
    if s == [] {
      TiesOfSnoc([], x, cmp, k);
      assert [] + [x] == [x];
    } else if cmp(s[|s| - 1], x) <= 0.0 {
      TiesOfSnoc(s, x, cmp, k);
    } else {
      var init, last := s[..|s| - 1], s[|s| - 1];
      var r0 := Insert(x, init, cmp);
      assert Insert(x, s, cmp) == r0 + [last];
      InsertTies(x, init, cmp, k);
      TiesOfSnoc(r0, last, cmp, k);
      var a, tx, tl := TiesOf(init, cmp, k), Tied(x, cmp, k), Tied(last, cmp, k);
      // x and last cannot both tie with k, since last is strictly after x
      assert tx == [] || tl == [];
      assert TiesOf(Insert(x, s, cmp), cmp, k) == a + tx + tl;
      assert TiesOf(s, cmp, k) == a + tl;
      if tx == [] {
        assert a + tx == a;
        assert a + tl + tx == a + tl;
      } else {
        assert tl == [];
        assert a + tx + tl == a + tx;
        assert a + tl == a;
      }
    }
  }

  /** Stability: for every element `k`, the elements tied with `k` come out
      in the order they went in. */
  lemma {:induction false} StableSortStable<T(!new)>(s: seq<T>, cmp: (T, T) -> real, k: T)
    requires Consistent(cmp)
    ensures TiesOf(StableSort(s, cmp), cmp, k) == TiesOf(s, cmp, k)
    decreases |s|
  {
    if s != [] {
      var init := s[..|s| - 1];
      StableSortStable(init, cmp, k);
      InsertTies(s[|s| - 1], StableSort(init, cmp), cmp, k);
    }
  }

  function Map<T, U>(s: seq<T>, f: T -> U): (r: seq<U>)
    ensures |r| == |s| && forall i :: 0 <= i < |s| ==> r[i] == f(s[i])
  {
    seq(|s|, i requires 0 <= i < |s| => f(s[i]))
  }

  lemma MapSnoc<T, U>(s: seq<T>, x: T, f: T -> U)
    ensures Map(s + [x], f) == Map(s, f) + [f(x)]
  {
  }

  lemma {:induction false} InsertMapMultiset<T, U>(x: T, s: seq<T>, cmp: (T, T) -> real, f: T -> U)
    ensures multiset(Map(Insert(x, s, cmp), f)) == multiset(Map(s, f)) + multiset{f(x)}
    decreases |s|
  {
    if s == [] {
      assert Map([x], f) == [f(x)];
    } else if cmp(s[|s| - 1], x) <= 0.0 {
      MapSnoc(s, x, f);
    } else {
      var init, last := s[..|s| - 1], s[|s| - 1];
      InsertMapMultiset(x, init, cmp, f);
      var r0 := Insert(x, init, cmp);
      MapSnoc(r0, last, f);
      SplitLast(s);
      MapSnoc(init, last, f);
    }
  }

  /** Projecting a sorted sequence gives a permutation of the projected input. */
  lemma {:induction false} StableSortMapMultiset<T, U>(s: seq<T>, cmp: (T, T) -> real, f: T -> U)
    ensures multiset(Map(StableSort(s, cmp), f)) == multiset(Map(s, f))
    decreases |s|
  {
    if s != [] {
      var init, last := s[..|s| - 1], s[|s| - 1];
      StableSortMapMultiset(init, cmp, f);
      InsertMapMultiset(last, StableSort(init, cmp), cmp, f);
      SplitLast(s);
      MapSnoc(init, last, f);
      assert multiset(Map(s, f)) == multiset(Map(init, f)) + multiset{f(last)};
    }
  }

  /** A projection under which the comparator is unchanged commutes with
      insertion. */
  lemma {:induction false} InsertMap<T, U>(x: T, s: seq<T>, cmp: (T, T) -> real, f: T -> U, cmpU: (U, U) -> real)
    requires forall a, b :: cmpU(f(a), f(b)) == cmp(a, b)
    ensures Map(Insert(x, s, cmp), f) == Insert(f(x), Map(s, f), cmpU)
    decreases |s|
  {
    if s == [] {
      assert Map([x], f) == [f(x)];
    } else {
      var init, last := s[..|s| - 1], s[|s| - 1];
      SplitLast(s);
      MapSnoc(init, last, f);
      var ms := Map(s, f);
      assert ms[..|ms| - 1] == Map(init, f) && ms[|ms| - 1] == f(last);
      if cmp(last, x) <= 0.0 {
        MapSnoc(s, x, f);
      } else {
        InsertMap(x, init, cmp, f, cmpU);
        MapSnoc(Insert(x, init, cmp), last, f);
      }
    }
  }

  /** ... and hence with the stable sort: sorting and then projecting is
      sorting the projected sequence. */
  lemma {:induction false} StableSortMap<T, U>(s: seq<T>, cmp: (T, T) -> real, f: T -> U, cmpU: (U, U) -> real)
    requires forall a, b :: cmpU(f(a), f(b)) == cmp(a, b)
    ensures Map(StableSort(s, cmp), f) == StableSort(Map(s, f), cmpU)
    decreases |s|
  {
    if s != [] {
      var init, last := s[..|s| - 1], s[|s| - 1];
      SplitLast(s);
      MapSnoc(init, last, f);
      var ms := Map(s, f);
      assert ms[..|ms| - 1] == Map(init, f) && ms[|ms| - 1] == f(last);
      StableSortMap(init, cmp, f, cmpU);
      InsertMap(last, StableSort(init, cmp), cmp, f, cmpU);
    }
  }

  /** Inserting `x` into `s` places it right after the longest prefix
      `s[..j]` whose remaining elements all belong strictly after `x`. */
  lemma {:induction false} InsertSplice<T>(x: T, s: seq<T>, j: nat, cmp: (T, T) -> real)
    requires j <= |s|
    requires j == 0 || cmp(s[j - 1], x) <= 0.0
    requires forall k :: j <= k < |s| ==> cmp(s[k], x) > 0.0
    ensures Insert(x, s, cmp) == s[..j] + [x] + s[j..]
    decreases |s|
  {
    if |s| == j {
      assert s[..j] == s && s[j..] == [];
    } else {
      var init, last := s[..|s| - 1], s[|s| - 1];
      assert cmp(last, x) > 0.0;
      assert Insert(x, s, cmp) == Insert(x, init, cmp) + [last];
      assert init[..j] == s[..j] && (j == 0 || init[j - 1] == s[j - 1]);
      InsertSplice(x, init, j, cmp);
      SpliceSnoc(s, j, x);
    }
  }

  lemma SpliceSnoc<T>(s: seq<T>, j: nat, x: T)
    requires j < |s|
    ensures s[..|s| - 1][..j] + [x] + s[..|s| - 1][j..] + [s[|s| - 1]] == s[..j] + [x] + s[j..]
  {
    var p, q, last := s[..j], s[j..|s| - 1], s[|s| - 1];
    assert s[..|s| - 1][j..] == q;
    assert q + [last] == s[j..];
    assert p + [x] + q + [last] == p + [x] + (q + [last]);
  }

  lemma SpliceIsInsert<T>(pre: seq<T>, i: nat, j: nat, cmp: (T, T) -> real)
    requires j <= i < |pre|
    requires j == 0 || cmp(pre[j - 1], pre[i]) <= 0.0
    requires forall k :: j <= k < i ==> cmp(pre[k], pre[i]) > 0.0
    ensures pre[..j] + [pre[i]] + pre[j..i] == Insert(pre[i], pre[..i], cmp)
  {
    var sorted := pre[..i];
    assert sorted[..j] == pre[..j] && sorted[j..] == pre[j..i];
    InsertSplice(pre[i], sorted, j, cmp);
  }

  lemma StableSortPrefix<T>(s: seq<T>, i: nat, cmp: (T, T) -> real)
    requires i < |s|
    ensures StableSort(s[..i + 1], cmp) == Insert(s[i], StableSort(s[..i], cmp), cmp)
  {
    assert s[..i + 1][..i] == s[..i];
  }

  /** `post` is `pre` with `pre[i]` moved left to position `j`. */
  lemma MovedLeft<T>(pre: seq<T>, post: seq<T>, i: nat, j: nat)
    requires j <= i < |pre| == |post|
    requires forall k :: 0 <= k < j ==> post[k] == pre[k]
    requires post[j] == pre[i]
    requires forall k :: j < k <= i ==> post[k] == pre[k - 1]
    requires forall k :: i < k < |pre| ==> post[k] == pre[k]
    ensures post[..i + 1] == pre[..j] + [pre[i]] + pre[j..i]
    ensures post[i + 1..] == pre[i + 1..]
  {
    var r := pre[..j] + [pre[i]] + pre[j..i];
    assert |r| == i + 1;
    forall k | 0 <= k <= i ensures post[k] == r[k] {
      if k < j {
      } else if k == j {
      } else {
        assert r[k] == pre[j..i][k - j - 1];
      }
    }
  }

  /** One step of the insertion sort: with the first `i` elements sorted and
      the rest untouched, moving `pre[i]` to its place sorts the first
      `i + 1`. */
  lemma InsertStep<T>(input: seq<T>, pre: seq<T>, post: seq<T>, i: nat, j: nat, cmp: (T, T) -> real)
    requires j <= i < |pre| == |post| == |input|
    requires pre[..i] == StableSort(input[..i], cmp) && pre[i..] == input[i..]
    requires j == 0 || cmp(pre[j - 1], pre[i]) <= 0.0
    requires forall k :: j <= k < i ==> cmp(pre[k], pre[i]) > 0.0
    requires forall k :: 0 <= k < j ==> post[k] == pre[k]
    requires post[j] == pre[i]
    requires forall k :: j < k <= i ==> post[k] == pre[k - 1]
    requires forall k :: i < k < |pre| ==> post[k] == pre[k]
    ensures post[..i + 1] == StableSort(input[..i + 1], cmp)
    ensures post[i + 1..] == input[i + 1..]
  {
    MovedLeft(pre, post, i, j);
    assert pre[i] == input[i] by {
      assert pre[i..][0] == input[i..][0];
    }
    assert pre[i + 1..] == input[i + 1..] by {
      assert pre[i + 1..] == pre[i..][1..] && input[i + 1..] == input[i..][1..];
    }
    SpliceIsInsert(pre, i, j, cmp);
    StableSortPrefix(input, i, cmp);
  }

  /** Moves `a[i]` left past every element of the prefix `a[..i]` that the
      comparator puts strictly after it (the inner loop of an insertion sort),
      and returns the position where it lands. */
  method InsertAt<T>(a: array<T>, i: nat, cmp: (T, T) -> real) returns (j: nat)
    requires i < a.Length
    modifies a
    ensures j <= i
    ensures j == 0 || cmp(old(a[j - 1]), old(a[i])) <= 0.0
    ensures forall k :: j <= k < i ==> cmp(old(a[k]), old(a[i])) > 0.0
    ensures forall k :: 0 <= k < j ==> a[k] == old(a[k])
    ensures a[j] == old(a[i])
    ensures forall k :: j < k <= i ==> a[k] == old(a[k - 1])
    ensures forall k :: i < k < a.Length ==> a[k] == old(a[k])
  {
    var x := a[i];
    j := i;
    while j > 0 && cmp(a[j - 1], x) > 0.0
      invariant 0 <= j <= i
      invariant forall k :: 0 <= k < j ==> a[k] == old(a[k])
      invariant forall k :: j < k <= i ==> a[k] == old(a[k - 1])
      invariant forall k :: i < k < a.Length ==> a[k] == old(a[k])
      invariant forall k :: j <= k < i ==> cmp(old(a[k]), x) > 0.0
      decreases j
    {
      a[j] := a[j - 1];
      j := j - 1;
    }
    a[j] := x;
  }

  /** Sorts the array in place, exactly as `StableSort` orders its contents. */
  method SortInPlace<T>(a: array<T>, cmp: (T, T) -> real)
    modifies a
    ensures a[..] == StableSort(old(a[..]), cmp)
  {
    ghost var input := a[..];
    var i := 0;
    while i < a.Length
      invariant 0 <= i <= a.Length
      invariant a[..i] == StableSort(input[..i], cmp)
      invariant a[i..] == input[i..]
    {
      ghost var pre := a[..];
      var j := InsertAt(a, i, cmp);
      InsertStep(input, pre, a[..], i, j, cmp);
      i := i + 1;
    }
    assert input[..a.Length] == input;
  }
}
