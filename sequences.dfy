/** Whole-column operations shared by the pipeline: boolean masks (`Filter`),
    `unique()` (`Distinct`), sorting by a numeric key (`SortBy`) and sums of counts. */
module Sequences {

  /** `a` can be obtained from `b` by deleting elements: the order of `b` is kept. */
  predicate IsSubsequence<T(==,!new)>(a: seq<T>, b: seq<T>)
    decreases |b|
  {
    if b == [] then a == []
    else (a != [] && a[0] == b[0] && IsSubsequence(a[1..], b[1..])) || IsSubsequence(a, b[1..])
  }

  /** A subsequence as long as the whole is the whole. */
  lemma {:induction false} SubsequenceOfSameLength<T(!new)>(a: seq<T>, b: seq<T>)
    requires IsSubsequence(a, b) && |a| == |b|
    ensures a == b
    decreases |b|
  {
    if b != [] {
      SubsequenceIsShorter(a, b[1..]);
      SubsequenceOfSameLength(a[1..], b[1..]);
    }
  }

  lemma {:induction false} SubsequenceIsShorter<T(!new)>(a: seq<T>, b: seq<T>)
    ensures IsSubsequence(a, b) ==> |a| <= |b|
    decreases |b|
  {
    if b != [] {
      SubsequenceIsShorter(a, b[1..]);
      if a != [] {
        SubsequenceIsShorter(a[1..], b[1..]);
      }
    }
  }

  /** The elements of `s` that satisfy `p`, in their original order: pandas'
      `frame[mask]`. The three clauses below determine the result: it keeps every
      occurrence of every element that passes, nothing else, and the order of `s`. */
  function Filter<T(==,!new)>(p: T -> bool, s: seq<T>): (r: seq<T>)
    ensures |r| <= |s|
    ensures forall x :: x in r <==> x in s && p(x)
    ensures forall x :: multiset(r)[x] == if p(x) then multiset(s)[x] else 0
    ensures IsSubsequence(r, s)
    decreases |s|
  {
    if s == [] then []
    else
      assert s == [s[0]] + s[1..];
      var rest := Filter(p, s[1..]);
      if p(s[0]) then [s[0]] + rest else rest
  }

  /** A mask that every element passes keeps the whole sequence. */
  lemma {:induction false} FilterAll<T(!new)>(p: T -> bool, s: seq<T>)
    requires forall x :: x in s ==> p(x)
    ensures Filter(p, s) == s
    decreases |s|
  {
    if s != [] {
      assert s[0] in s;
      forall x | x in s[1..] ensures p(x) { assert x in s; }
      FilterAll(p, s[1..]);
    }
  }

  /** Masks that agree on every element select the same elements. */
  lemma {:induction false} FilterSamePredicate<T(!new)>(p: T -> bool, q: T -> bool, s: seq<T>)
    requires forall x :: p(x) == q(x)
    ensures Filter(p, s) == Filter(q, s)
    decreases |s|
  {
    if s != [] {
      FilterSamePredicate(p, q, s[1..]);
    }
  }

  /** Applying two masks one after the other is applying their conjunction once. */
  lemma {:induction false} FilterTwice<T(!new)>(p: T -> bool, q: T -> bool, both: T -> bool, s: seq<T>)
    requires forall x :: both(x) == (p(x) && q(x))
    ensures Filter(q, Filter(p, s)) == Filter(both, s)
    decreases |s|
  {
    if s != [] {
      FilterTwice(p, q, both, s[1..]);
    }
  }

  /** `f` applied to every element. */
  function Map<T, U>(f: T -> U, s: seq<T>): (r: seq<U>)
    ensures |r| == |s|
    ensures forall i :: 0 <= i < |s| ==> r[i] == f(s[i])
    decreases |s|
  {
    if s == [] then [] else [f(s[0])] + Map(f, s[1..])
  }

  /** A mask that an element passes exactly when its image does can be applied before
      or after the map. */
  lemma {:induction false} FilterMap<T(!new)>(p: T -> bool, f: T -> T, s: seq<T>)
    requires forall x {:trigger f(x)} :: p(f(x)) == p(x)
    ensures Filter(p, Map(f, s)) == Map(f, Filter(p, s))
    decreases |s|
  {
    if s != [] {
      var m := Map(f, s);
      assert m[1..] == Map(f, s[1..]);
      FilterMap(p, f, s[1..]);
      FilterMapStep(p, f, s, m);
    }
  }

  lemma FilterMapStep<T(!new)>(p: T -> bool, f: T -> T, s: seq<T>, m: seq<T>)
    requires s != [] && m == Map(f, s) && p(m[0]) == p(s[0])
    requires Filter(p, m[1..]) == Map(f, Filter(p, s[1..]))
    ensures Filter(p, m) == Map(f, Filter(p, s))
  {
    var rest := Filter(p, s[1..]);
    if p(s[0]) {
      assert Map(f, [s[0]] + rest) == [f(s[0])] + Map(f, rest);
    }
  }

  /** `Map` distributes over concatenation. */
  lemma {:induction false} MapAppend<T, U>(f: T -> U, a: seq<T>, b: seq<T>)
    ensures Map(f, a + b) == Map(f, a) + Map(f, b)
    decreases |a|
  {
    if a != [] {
      assert (a + b)[1..] == a[1..] + b;
      MapAppend(f, a[1..], b);
    }
  }

  /** A permutation has the same images under `f`. */
  lemma MapPermutation<T(!new), U(!new)>(f: T -> U, a: seq<T>, b: seq<T>)
    requires multiset(a) == multiset(b)
    ensures forall y :: y in Map(f, a) <==> y in Map(f, b)
  {
    forall y ensures y in Map(f, a) ==> y in Map(f, b) {
      if y in Map(f, a) {
        var i :| 0 <= i < |a| && Map(f, a)[i] == y;
        assert a[i] in multiset(b);
        var j :| 0 <= j < |b| && b[j] == a[i];
        assert Map(f, b)[j] == y;
      }
    }
    forall y ensures y in Map(f, b) ==> y in Map(f, a) {
      if y in Map(f, b) {
        var j :| 0 <= j < |b| && Map(f, b)[j] == y;
        assert b[j] in multiset(a);
        var i :| 0 <= i < |a| && a[i] == b[j];
        assert Map(f, a)[i] == y;
      }
    }
  }

  /** No element occurs twice. */
  predicate NoDup<T(==,!new)>(s: seq<T>)
  {
    forall i, j :: 0 <= i < j < |s| ==> s[i] != s[j]
  }

  /** pandas' `unique()`: every value of `s` once, in order of first appearance. */
  function Distinct<T(==,!new)>(s: seq<T>): (r: seq<T>)
    ensures NoDup(r)
    ensures forall x :: x in r <==> x in s
    ensures |r| <= |s|
    decreases |s|
  {
    if s == [] then []
    else
      var init := s[..|s| - 1];
      assert s == init + [s[|s| - 1]];
      var r := Distinct(init);
      if s[|s| - 1] in r then r else r + [s[|s| - 1]]
  }

  /** Two different values of `s` make at least two distinct values. */
  lemma TwoValuesTwoDistinct<T(!new)>(s: seq<T>, x: T, y: T)
    requires x in s && y in s && x != y
    ensures |Distinct(s)| >= 2
  {
    var d := Distinct(s);
    assert x in d && y in d;
    var i :| 0 <= i < |d| && d[i] == x;
    var k :| 0 <= k < |d| && d[k] == y;
    assert i != k;
  }

  /** The keys of `s` are in non-decreasing order. */
  predicate SortedBy<T>(s: seq<T>, key: T -> real)
  {
    forall i, j :: 0 <= i < j < |s| ==> key(s[i]) <= key(s[j])
  }

  /** Inserts `x` into a sorted sequence, before the first element with a key at least as large. */
  function Insert<T(==,!new)>(x: T, s: seq<T>, key: T -> real): (r: seq<T>)
    requires SortedBy(s, key)
    ensures SortedBy(r, key)
    ensures multiset(r) == multiset(s) + multiset{x}
    decreases |s|
  {
    if s == [] || key(x) <= key(s[0]) then [x] + s
    else
      var rest := Insert(x, s[1..], key);
      InsertBound(x, s, key, rest);
      SortedCons(s[0], rest, key);
      assert s == [s[0]] + s[1..];
      [s[0]] + rest
  }

  /** What is inserted after the head of a sorted sequence has keys no smaller than the head's. */
  lemma InsertBound<T>(x: T, s: seq<T>, key: T -> real, rest: seq<T>)
    requires s != [] && SortedBy(s, key) && key(s[0]) < key(x)
    requires multiset(rest) == multiset(s[1..]) + multiset{x}
    ensures forall k :: 0 <= k < |rest| ==> key(s[0]) <= key(rest[k])
  {
    forall k | 0 <= k < |rest| ensures key(s[0]) <= key(rest[k]) {
      assert rest[k] in multiset(rest);
      if rest[k] != x {
        assert rest[k] in multiset(s[1..]);
        var j :| 0 <= j < |s[1..]| && s[1..][j] == rest[k];
        assert s[j + 1] == rest[k];
      }
    }
  }

  lemma SortedCons<T>(h: T, rest: seq<T>, key: T -> real)
    requires SortedBy(rest, key)
    requires forall k :: 0 <= k < |rest| ==> key(h) <= key(rest[k])
    ensures SortedBy([h] + rest, key)
  {
    var r := [h] + rest;
    forall i, j | 0 <= i < j < |r| ensures key(r[i]) <= key(r[j]) {
      assert r[j] == rest[j - 1];
      if i > 0 {
        assert r[i] == rest[i - 1];
      }
    }
  }

  /** The elements of `s` ordered by `key` (ascending); a descending order is an
      ascending order of the negated key. */
  function SortBy<T(==,!new)>(s: seq<T>, key: T -> real): (r: seq<T>)
    ensures SortedBy(r, key)
    ensures multiset(r) == multiset(s)
    ensures |r| == |s|
    decreases |s|
  {
    if s == [] then []
    else
      assert s == [s[0]] + s[1..];
      var r := Insert(s[0], SortBy(s[1..], key), key);
      assert |multiset(r)| == |multiset(s)|;
      r
  }

  /** A permutation of a sequence without duplicates has none either. */
  lemma NoDupPermutation<T(!new)>(a: seq<T>, b: seq<T>)
    requires NoDup(a) && multiset(a) == multiset(b)
    ensures NoDup(b)
  {
    forall x ensures multiset(a)[x] <= 1 {
      NoDupAtMostOnce(a, x);
    }
    forall i, j | 0 <= i < j < |b| ensures b[i] != b[j] {
      assert b == b[..i] + [b[i]] + b[i + 1..j] + [b[j]] + b[j + 1..];
      assert multiset{b[i], b[j]} <= multiset(b);
    }
  }

  lemma {:induction false} NoDupAtMostOnce<T(!new)>(a: seq<T>, x: T)
    requires NoDup(a)
    ensures multiset(a)[x] <= 1
    decreases |a|
  {
    if a != [] {
      assert a == [a[0]] + a[1..];
      assert NoDup(a[1..]) by {
        forall i, j | 0 <= i < j < |a[1..]| ensures a[1..][i] != a[1..][j] {
          assert a[1..][i] == a[i + 1] && a[1..][j] == a[j + 1];
        }
      }
      NoDupAtMostOnce(a[1..], x);
      forall j | 0 <= j < |a[1..]| ensures a[1..][j] != a[0] {
        assert a[1..][j] == a[j + 1];
      }
    }
  }

  /** The total of `w` over the elements of `s`. */
  function SumBy<T>(s: seq<T>, w: T -> int): int
    decreases |s|
  {
    if s == [] then 0 else w(s[0]) + SumBy(s[1..], w)
  }

  lemma {:induction false} SumByAppend<T>(a: seq<T>, b: seq<T>, w: T -> int)
    ensures SumBy(a + b, w) == SumBy(a, w) + SumBy(b, w)
    decreases |a|
  {
    if a == [] {
      assert a + b == b;
    } else {
      assert (a + b)[0] == a[0];
      assert (a + b)[1..] == a[1..] + b;
      SumByAppend(a[1..], b, w);
    }
  }

  /** A total does not depend on the order in which it is taken. */
  lemma {:induction false} SumByPermutation<T(!new)>(a: seq<T>, b: seq<T>, w: T -> int)
    requires multiset(a) == multiset(b)
    ensures SumBy(a, w) == SumBy(b, w)
    decreases |a|
  {
    if a == [] {
      assert |multiset(b)| == 0;
    } else {
      assert a == [a[0]] + a[1..];
      assert a[0] in multiset(b);
      var j :| 0 <= j < |b| && b[j] == a[0];
      var rest := b[..j] + b[j + 1..];
      SumByRemove(b, j, w);
      SumByPermutation(a[1..], rest, w);
    }
  }

  /** Taking one element out of a sequence takes its weight out of the total, and it
      out of the multiset. */
  lemma SumByRemove<T(!new)>(b: seq<T>, j: nat, w: T -> int)
    requires j < |b|
    ensures SumBy(b, w) == w(b[j]) + SumBy(b[..j] + b[j + 1..], w)
    ensures multiset(b[..j] + b[j + 1..]) == multiset(b) - multiset{b[j]}
  {
    SumByWithout(b, j, w);
    MultisetWithout(b, j);
  }

  lemma SumByWithout<T>(b: seq<T>, j: nat, w: T -> int)
    requires j < |b|
    ensures SumBy(b, w) == w(b[j]) + SumBy(b[..j] + b[j + 1..], w)
  {
    var pre, x, post := b[..j], b[j], b[j + 1..];
    assert b == pre + ([x] + post);
    SumByAppend(pre, [x] + post, w);
    SumByAppend([x], post, w);
    SumByAppend(pre, post, w);
    assert SumBy([x], w) == w(x) by { assert [x][1..] == []; }
  }

  lemma MultisetWithout<T>(b: seq<T>, j: nat)
    requires j < |b|
    ensures multiset(b[..j] + b[j + 1..]) == multiset(b) - multiset{b[j]}
  {
    assert b == b[..j] + [b[j]] + b[j + 1..];
  }

  /** Sum over `keys` of how often each key occurs in `m`. */
  function SumCounts<T(==,!new)>(keys: seq<T>, m: multiset<T>): nat
    decreases |keys|
  {
    if keys == [] then 0 else m[keys[0]] + SumCounts(keys[1..], m)
  }

  lemma {:induction false} SumCountsAdd<T(!new)>(keys: seq<T>, m: multiset<T>, x: T)
    requires NoDup(keys)
    ensures SumCounts(keys, m + multiset{x}) == SumCounts(keys, m) + if x in keys then 1 else 0
    decreases |keys|
  {
    if keys != [] {
      assert NoDup(keys[1..]) by {
        forall i, j | 0 <= i < j < |keys[1..]| ensures keys[1..][i] != keys[1..][j] {
          assert keys[1..][i] == keys[i + 1] && keys[1..][j] == keys[j + 1];
        }
      }
      SumCountsAdd(keys[1..], m, x);
      forall j | 0 <= j < |keys[1..]| ensures keys[1..][j] != keys[0] {
        assert keys[1..][j] == keys[j + 1];
      }
      assert keys == [keys[0]] + keys[1..];
    }
  }

  /** When `keys` lists every value of `s` once, the counts of the keys add up to `|s|`. */
  lemma {:induction false} CountsAddUp<T(!new)>(keys: seq<T>, s: seq<T>)
    requires NoDup(keys)
    requires forall x :: x in s ==> x in keys
    ensures SumCounts(keys, multiset(s)) == |s|
    decreases |s|
  {
    if s == [] {
      SumCountsEmpty(keys);
    } else {
      var init := s[..|s| - 1];
      assert s == init + [s[|s| - 1]];
      assert multiset(s) == multiset(init) + multiset{s[|s| - 1]};
      forall x | x in init ensures x in keys { assert x in s; }
      CountsAddUp(keys, init);
      SumCountsAdd(keys, multiset(init), s[|s| - 1]);
    }
  }

  lemma {:induction false} SumCountsEmpty<T(!new)>(keys: seq<T>)
    ensures SumCounts(keys, multiset{}) == 0
    decreases |keys|
  {
    if keys != [] {
      SumCountsEmpty(keys[1..]);
    }
  }
}
