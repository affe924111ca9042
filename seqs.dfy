/** Filtering, reversing and removing from sequences. */
module Seqs {

  /** The elements of `xs` that satisfy `p`, in order (a list comprehension with a condition). */
  function Filter<T>(p: T -> bool, xs: seq<T>): (r: seq<T>)
    ensures |r| <= |xs|
    ensures forall i :: 0 <= i < |r| ==> p(r[i])
  {
    if xs == [] then []
    else (if p(xs[0]) then [xs[0]] else []) + Filter(p, xs[1..])
  }

  /** Filtering distributes over concatenation. */
  lemma {:induction false} FilterAppend<T>(p: T -> bool, a: seq<T>, b: seq<T>)
    ensures Filter(p, a + b) == Filter(p, a) + Filter(p, b)
  {
    if a == [] {
      assert a + b == b;
    } else {
      assert (a + b)[1..] == a[1..] + b;
      FilterAppend(p, a[1..], b);
    }
  }

  /** An element is kept exactly when it is in the input and satisfies the predicate. */
  lemma {:induction false} FilterMembers<T>(p: T -> bool, xs: seq<T>)
    ensures forall x :: x in Filter(p, xs) <==> x in xs && p(x)
  {
    if xs != [] {
      FilterMembers(p, xs[1..]);
      assert xs == [xs[0]] + xs[1..];
    }
  }

  /** When every element satisfies the predicate, nothing is dropped. */
  lemma {:induction false} FilterKeepsAll<T>(p: T -> bool, xs: seq<T>)
    requires forall i :: 0 <= i < |xs| ==> p(xs[i])
    ensures Filter(p, xs) == xs
  {
    if xs != [] {
      FilterKeepsAll(p, xs[1..]);
    }
  }

  /** When no element satisfies the predicate, nothing is kept. */
  lemma {:induction false} FilterDropsAll<T>(p: T -> bool, xs: seq<T>)
    requires forall i :: 0 <= i < |xs| ==> !p(xs[i])
    ensures Filter(p, xs) == []
  {
    if xs != [] {
      FilterDropsAll(p, xs[1..]);
    }
  }

  /** Every kept element is an element of the input. */
  lemma {:induction false} FilterFrom<T>(p: T -> bool, xs: seq<T>, i: nat)
    requires i < |Filter(p, xs)|
    ensures exists m :: 0 <= m < |xs| && Filter(p, xs)[i] == xs[m]
  {
    var rest := Filter(p, xs[1..]);
    if p(xs[0]) {
      if i > 0 {
        FilterFrom(p, xs[1..], i - 1);
        var m :| 0 <= m < |xs| - 1 && rest[i - 1] == xs[1..][m];
        assert Filter(p, xs)[i] == xs[m + 1];
      } else {
        assert Filter(p, xs)[0] == xs[0];
      }
    } else {
      FilterFrom(p, xs[1..], i);
      var m :| 0 <= m < |xs| - 1 && rest[i] == xs[1..][m];
      assert Filter(p, xs)[i] == xs[m + 1];
    }
  }

  /** `idx` picks the elements of `r` out of `xs`, at strictly increasing positions. */
  ghost predicate Embeds<T>(r: seq<T>, xs: seq<T>, idx: seq<nat>) {
    && |idx| == |r|
    && (forall k :: 0 <= k < |idx| ==> idx[k] < |xs| && r[k] == xs[idx[k]])
    && (forall k, l :: 0 <= k < l < |idx| ==> idx[k] < idx[l])
  }

  /** `r` is `xs` with some elements left out and the rest in their order. */
  ghost predicate Subsequence<T>(r: seq<T>, xs: seq<T>) {
    exists idx :: Embeds(r, xs, idx)
  }

  /** Positions one further on. */
  function Shifted(idx: seq<nat>): (r: seq<nat>)
    ensures |r| == |idx| && forall k :: 0 <= k < |idx| ==> r[k] == idx[k] + 1
  {
    seq(|idx|, k requires 0 <= k < |idx| => idx[k] + 1)
  }

  /** Positions in the tail of `xs` are positions in `xs` one further on. */
  lemma EmbedsTail<T>(r: seq<T>, xs: seq<T>, idx: seq<nat>)
    requires xs != [] && Embeds(r, xs[1..], idx)
    ensures Embeds(r, xs, Shifted(idx))
  {
  }

  /** The head of `xs` can go in front of what is picked from its tail. */
  lemma EmbedsHead<T>(r: seq<T>, xs: seq<T>, idx: seq<nat>)
    requires xs != [] && Embeds(r, xs[1..], idx)
    ensures Embeds([xs[0]] + r, xs, [0] + Shifted(idx))
  {
    var r' := [xs[0]] + r;
    var idx' := [0] + Shifted(idx);
    assert forall k :: 0 < k < |idx'| ==> idx'[k] == idx[k - 1] + 1 && r'[k] == r[k - 1];
  }

  /** Filtering keeps the order of the elements it keeps. */
  lemma {:induction false} FilterSubsequence<T>(p: T -> bool, xs: seq<T>)
    ensures Subsequence(Filter(p, xs), xs)
  {
    if xs == [] {
      assert Embeds(Filter(p, xs), xs, []);
    } else {
      FilterSubsequence(p, xs[1..]);
      var idx :| Embeds(Filter(p, xs[1..]), xs[1..], idx);
      if p(xs[0]) {
        EmbedsHead(Filter(p, xs[1..]), xs, idx);
        assert Filter(p, xs) == [xs[0]] + Filter(p, xs[1..]);
      } else {
        EmbedsTail(Filter(p, xs[1..]), xs, idx);
        assert Filter(p, xs) == Filter(p, xs[1..]);
      }
    }
  }

  /** The key strictly increases along the sequence. */
  predicate Increasing<T>(key: T -> int, xs: seq<T>) {
    forall i, j :: 0 <= i < j < |xs| ==> key(xs[i]) < key(xs[j])
  }

  lemma IncreasingCons<T>(key: T -> int, x: T, xs: seq<T>)
    requires Increasing(key, xs)
    requires forall j :: 0 <= j < |xs| ==> key(x) < key(xs[j])
    ensures Increasing(key, [x] + xs)
  {
    var r := [x] + xs;
    forall i, j | 0 <= i < j < |r| ensures key(r[i]) < key(r[j]) {
      assert r[j] == xs[j - 1];
      if i > 0 {
        assert r[i] == xs[i - 1];
      }
    }
  }

  /** Filtering keeps a strictly increasing key strictly increasing: the kept elements stay in order. */
  lemma {:induction false} FilterIncreasing<T>(p: T -> bool, key: T -> int, xs: seq<T>)
    requires Increasing(key, xs)
    ensures Increasing(key, Filter(p, xs))
  {
    if xs != [] {
      assert Increasing(key, xs[1..]) by {
        forall i, j | 0 <= i < j < |xs| - 1 ensures key(xs[1..][i]) < key(xs[1..][j]) {
          assert xs[1..][i] == xs[i + 1] && xs[1..][j] == xs[j + 1];
        }
      }
      FilterIncreasing(p, key, xs[1..]);
      var rest := Filter(p, xs[1..]);
      if p(xs[0]) {
        forall j | 0 <= j < |rest| ensures key(xs[0]) < key(rest[j]) {
          FilterFrom(p, xs[1..], j);
          var m :| 0 <= m < |xs| - 1 && rest[j] == xs[1..][m];
          assert rest[j] == xs[m + 1];
        }
        IncreasingCons(key, xs[0], rest);
        assert Filter(p, xs) == [xs[0]] + rest;
      } else {
        assert Filter(p, xs) == rest;
      }
    }
  }

  /** The elements in reverse order. */
  function Reverse<T>(xs: seq<T>): (r: seq<T>)
    ensures |r| == |xs| && forall i :: 0 <= i < |xs| ==> r[i] == xs[|xs| - 1 - i]
  {
    if xs == [] then [] else [xs[|xs| - 1]] + Reverse(xs[..|xs| - 1])
  }

  /** Python's `list.remove(x)` on a list that holds `x`: the first occurrence is dropped. Without `x` the list is unchanged. */
  function Remove<T(==)>(xs: seq<T>, x: T): (r: seq<T>)
    ensures x in xs ==> |r| == |xs| - 1
    ensures x !in xs ==> r == xs
  {
    if xs == [] then []
    else if xs[0] == x then xs[1..]
    else
      assert xs == [xs[0]] + xs[1..];
      [xs[0]] + Remove(xs[1..], x)
  }

  /** Removing takes out one copy of `x` and keeps every other element. */
  lemma {:induction false} RemoveCount<T>(xs: seq<T>, x: T)
    ensures multiset(Remove(xs, x)) == multiset(xs) - multiset{x}
  {
    if xs != [] {
      assert xs == [xs[0]] + xs[1..];
      if xs[0] != x {
        RemoveCount(xs[1..], x);
      }
    }
  }

  /** Removing `x` from a list whose first occurrence of `x` follows `a` takes out exactly that occurrence. */
  lemma {:induction false} RemoveAfter<T>(a: seq<T>, x: T, b: seq<T>)
    requires x !in a
    ensures Remove(a + [x] + b, x) == a + b
  {
    if a != [] {
      assert (a + [x] + b)[1..] == a[1..] + [x] + b;
      RemoveAfter(a[1..], x, b);
      assert a + b == [a[0]] + (a[1..] + b);
    }
  }

  /** No two elements share a key. */
  predicate Distinct<T>(key: T -> int, xs: seq<T>) {
    forall i, j :: 0 <= i < j < |xs| ==> key(xs[i]) != key(xs[j])
  }

  /** Filtering keeps keys distinct. */
  lemma {:induction false} FilterDistinct<T>(p: T -> bool, key: T -> int, xs: seq<T>)
    requires Distinct(key, xs)
    ensures Distinct(key, Filter(p, xs))
  {
    if xs != [] {
      assert Distinct(key, xs[1..]) by {
        forall i, j | 0 <= i < j < |xs| - 1 ensures key(xs[1..][i]) != key(xs[1..][j]) {
          assert xs[1..][i] == xs[i + 1] && xs[1..][j] == xs[j + 1];
        }
      }
      FilterDistinct(p, key, xs[1..]);
      var rest := Filter(p, xs[1..]);
      if p(xs[0]) {
        var r := [xs[0]] + rest;
        forall i, j | 0 <= i < j < |r| ensures key(r[i]) != key(r[j]) {
          FilterFrom(p, xs[1..], j - 1);
          var m :| 0 <= m < |xs| - 1 && rest[j - 1] == xs[1..][m];
          assert r[j] == xs[m + 1];
          if i > 0 {
            assert r[i] == rest[i - 1];
          }
        }
        assert Filter(p, xs) == r;
      } else {
        assert Filter(p, xs) == rest;
      }
    }
  }
}
