/**
  The two list operations the dashboard leans on, with their meaning spelled out:
  `Array.prototype.filter` (keep the elements a predicate accepts, in order) and
  the engine's stable `Array.prototype.sort` driven by a numeric comparator of
  the form `key(a) - key(b)`.
 */
module Seqs {

  /** `a` can be obtained from `b` by deleting elements. */
  ghost predicate IsSubsequence<T>(a: seq<T>, b: seq<T>)
    decreases |b|
  {
    if a == [] then true
    else if b == [] then false
    else if a[0] == b[0] then IsSubsequence(a[1..], b[1..])
    else IsSubsequence(a, b[1..])
  }

  /** `xs.filter(keep)`: the accepted elements, in their original order. */
  function Filter<T(!new)>(xs: seq<T>, keep: T -> bool): (r: seq<T>)
    ensures |r| <= |xs|
    ensures IsSubsequence(r, xs)
    decreases |xs|
  {
    if xs == [] then []
    else
      var rest := Filter(xs[1..], keep);
      if keep(xs[0]) then
        assert ([xs[0]] + rest)[1..] == rest;
        [xs[0]] + rest
      else
        SubsequenceOfTail(rest, xs);
        rest
  }

  /**
    The filter keeps every accepted element as often as it occurs and drops
    every other one.
   */
  lemma {:induction false} FilterCounts<T(!new)>(xs: seq<T>, keep: T -> bool)
    ensures forall x :: multiset(Filter(xs, keep))[x] == if keep(x) then multiset(xs)[x] else 0
    ensures forall x :: x in Filter(xs, keep) <==> x in xs && keep(x)
    decreases |xs|
  {
    if xs != [] {
      FilterCounts(xs[1..], keep);
      assert xs == [xs[0]] + xs[1..];
      assert multiset(xs) == multiset{xs[0]} + multiset(xs[1..]);
    }
  }

  /** The filter's elements are the accepted elements of the input. */
  lemma FilterMembers<T(!new)>(xs: seq<T>, keep: T -> bool)
    ensures forall x :: x in Filter(xs, keep) <==> x in xs && keep(x)
  {
    FilterCounts(xs, keep);
  }

  lemma {:induction false} SubsequenceOfTail<T>(a: seq<T>, b: seq<T>)
    requires b != [] && IsSubsequence(a, b[1..])
    ensures IsSubsequence(a, b)
    decreases |b|, 0
  {
    if a != [] && a[0] == b[0] {
      SubsequenceDropHead(a, b[1..]);
    }
  }

  lemma {:induction false} SubsequenceDropHead<T>(a: seq<T>, b: seq<T>)
    requires a != [] && IsSubsequence(a, b)
    ensures IsSubsequence(a[1..], b)
    decreases |b|, 1
  {
    if a[1..] != [] {
      if a[0] == b[0] {
        SubsequenceOfTail(a[1..], b);
      } else {
        SubsequenceDropHead(a, b[1..]);
        SubsequenceOfTail(a[1..], b);
      }
    }
  }

  /**
    `r` keeps exactly the elements of `xs` that `keep` accepts: each as often
    as it occurs in `xs`, none of the others, and in their order in `xs`.
   */
  ghost predicate Keeps<T(!new)>(r: seq<T>, xs: seq<T>, keep: T -> bool) {
    && IsSubsequence(r, xs)
    && (forall x :: x in r <==> x in xs && keep(x))
    && (forall x :: multiset(r)[x] == if keep(x) then multiset(xs)[x] else 0)
  }

  lemma FilterKeeps<T(!new)>(xs: seq<T>, keep: T -> bool)
    ensures Keeps(Filter(xs, keep), xs, keep)
  {
    FilterCounts(xs, keep);
  }

  /** Two predicates that agree on the elements filter alike. */
  lemma {:induction false} FilterCongruent<T(!new)>(xs: seq<T>, p: T -> bool, q: T -> bool)
    requires forall x :: x in xs ==> p(x) == q(x)
    ensures Filter(xs, p) == Filter(xs, q)
    decreases |xs|
  {
    if xs != [] {
      assert forall x :: x in xs[1..] ==> x in xs;
      FilterCongruent(xs[1..], p, q);
    }
  }

  /** Filtering distributes over concatenation. */
  lemma {:induction false} FilterConcat<T(!new)>(a: seq<T>, b: seq<T>, keep: T -> bool)
    ensures Filter(a + b, keep) == Filter(a, keep) + Filter(b, keep)
    decreases |a|
  {
    if a == [] {
      assert a + b == b;
    } else {
      var ab := a + b;
      assert ab != [] && ab[0] == a[0] && ab[1..] == a[1..] + b;
      FilterConcat(a[1..], b, keep);
      if keep(a[0]) {
        calc {
          Filter(ab, keep);
          [a[0]] + Filter(a[1..] + b, keep);
          [a[0]] + (Filter(a[1..], keep) + Filter(b, keep));
          ([a[0]] + Filter(a[1..], keep)) + Filter(b, keep);
          Filter(a, keep) + Filter(b, keep);
        }
      } else {
        calc {
          Filter(ab, keep);
          Filter(a[1..] + b, keep);
          Filter(a[1..], keep) + Filter(b, keep);
          Filter(a, keep) + Filter(b, keep);
        }
      }
    }
  }

  lemma FilterSingleton<T(!new)>(x: T, keep: T -> bool)
    ensures Filter([x], keep) == if keep(x) then [x] else []
  {
    assert [x][1..] == [];
  }

  /** A filter that rejects nothing is the identity. */
  lemma {:induction false} FilterKeepsAll<T(!new)>(xs: seq<T>, keep: T -> bool)
    requires forall x :: x in xs ==> keep(x)
    ensures Filter(xs, keep) == xs
    decreases |xs|
  {
    if xs != [] {
      assert forall x :: x in xs[1..] ==> x in xs;
      FilterKeepsAll(xs[1..], keep);
    }
  }

  /** Filtering twice by the same predicate is filtering once. */
  lemma FilterIdempotent<T(!new)>(xs: seq<T>, keep: T -> bool)
    ensures Filter(Filter(xs, keep), keep) == Filter(xs, keep)
  {
    FilterCounts(xs, keep);
    FilterKeepsAll(Filter(xs, keep), keep);
  }

  /** The number of elements two exclusive predicates accept together is at most the length. */
  lemma {:induction false} FilterExclusive<T(!new)>(xs: seq<T>, p: T -> bool, q: T -> bool)
    requires forall x :: x in xs ==> !(p(x) && q(x))
    ensures |Filter(xs, p)| + |Filter(xs, q)| <= |xs|
    decreases |xs|
  {
    if xs != [] {
      assert forall x :: x in xs[1..] ==> x in xs;
      FilterExclusive(xs[1..], p, q);
    }
  }

  /** Every element the first predicate accepts, the second accepts too. */
  lemma {:induction false} FilterMonotone<T(!new)>(xs: seq<T>, p: T -> bool, q: T -> bool)
    requires forall x :: x in xs ==> p(x) ==> q(x)
    ensures |Filter(xs, p)| <= |Filter(xs, q)|
    decreases |xs|
  {
    if xs != [] {
      assert forall x :: x in xs[1..] ==> x in xs;
      FilterMonotone(xs[1..], p, q);
    }
  }

  ghost predicate SortedByKey<T>(xs: seq<T>, key: T -> int) {
    forall i, j :: 0 <= i < j < |xs| ==> key(xs[i]) <= key(xs[j])
  }

  /** The predicate "has key k". */
  function KeyIs<T>(key: T -> int, k: int): T -> bool {
    x => key(x) == k
  }

  lemma SortedCons<T>(y: T, rest: seq<T>, key: T -> int)
    requires SortedByKey(rest, key)
    requires forall i :: 0 <= i < |rest| ==> key(y) <= key(rest[i])
    ensures SortedByKey([y] + rest, key)
  {
    var r := [y] + rest;
    forall i, j | 0 <= i < j < |r| ensures key(r[i]) <= key(r[j]) {
      assert r[j] == rest[j - 1];
      if i > 0 {
        assert r[i] == rest[i - 1];
      }
    }
  }

  /**
    Places `x` in front of the first element whose key is not smaller: `x` ends
    up before every element of equal key, which is where it stood in the input.
   */
  function InsertByKey<T(!new)>(x: T, ys: seq<T>, key: T -> int): (r: seq<T>)
    requires SortedByKey(ys, key)
    ensures SortedByKey(r, key)
    ensures multiset(r) == multiset(ys) + multiset{x}
    ensures |r| == |ys| + 1
    decreases |ys|
  {
    if ys == [] then [x]
    else if key(x) <= key(ys[0]) then
      SortedCons(x, ys, key);
      [x] + ys
    else
      var tail := ys[1..];
      assert ys == [ys[0]] + tail;
      var rest := InsertByKey(x, tail, key);
      forall i | 0 <= i < |rest| ensures key(ys[0]) <= key(rest[i]) {
        assert rest[i] in multiset(rest);
        if rest[i] != x {
          assert rest[i] in multiset(tail);
          assert rest[i] in tail;
          var j :| 0 <= j < |tail| && tail[j] == rest[i];
          assert ys[j + 1] == rest[i];
        }
      }
      SortedCons(ys[0], rest, key);
      [ys[0]] + rest
  }

  /** A stable sort of `xs` by ascending `key`. */
  function SortByKey<T(!new)>(xs: seq<T>, key: T -> int): (r: seq<T>)
    ensures SortedByKey(r, key)
    ensures multiset(r) == multiset(xs)
    ensures |r| == |xs|
    decreases |xs|
  {
    if xs == [] then []
    else
      assert xs == [xs[0]] + xs[1..];
      InsertByKey(xs[0], SortByKey(xs[1..], key), key)
  }

  lemma {:induction false} InsertByKeyStable<T(!new)>(x: T, ys: seq<T>, key: T -> int, k: int)
    requires SortedByKey(ys, key)
    ensures Filter(InsertByKey(x, ys, key), KeyIs(key, k))
         == if key(x) == k then [x] + Filter(ys, KeyIs(key, k)) else Filter(ys, KeyIs(key, k))
    decreases |ys|
  {
    var p := KeyIs(key, k);
    if ys == [] || key(x) <= key(ys[0]) {
      var r := [x] + ys;
      assert r[1..] == ys;
    } else {
      InsertByKeyStable(x, ys[1..], key, k);
      var r := InsertByKey(x, ys[1..], key);
      assert ([ys[0]] + r)[1..] == r;
      if key(x) == k {
        assert !p(ys[0]);
      }
    }
  }

  /**
    Stability: the elements of any one key appear in the sorted result in the
    order they had in the input.
   */
  lemma {:induction false} SortByKeyStable<T(!new)>(xs: seq<T>, key: T -> int, k: int)
    ensures Filter(SortByKey(xs, key), KeyIs(key, k)) == Filter(xs, KeyIs(key, k))
    decreases |xs|
  {
    if xs != [] {
      SortByKeyStable(xs[1..], key, k);
      InsertByKeyStable(xs[0], SortByKey(xs[1..], key), key, k);
    }
  }
}
