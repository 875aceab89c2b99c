/** Generic facts about concatenating one sequence per element of a list. */
module Sequences {

  /** `f(xs[0]) + f(xs[1]) + ... + f(xs[|xs| - 1])`. */
  function FlatMap<T, U>(xs: seq<T>, f: T -> seq<U>): seq<U>
    decreases |xs|
  {
    if xs == [] then [] else FlatMap(xs[..|xs| - 1], f) + f(xs[|xs| - 1])
  }

  lemma InitOfAppend<T>(a: seq<T>, b: seq<T>)
    requires b != []
    ensures (a + b)[..|a + b| - 1] == a + b[..|b| - 1]
    ensures (a + b)[|a + b| - 1] == b[|b| - 1]
  {
  }

  lemma SplitAt<T>(xs: seq<T>, i: nat)
    requires i < |xs|
    ensures xs == xs[..i] + [xs[i]] + xs[i + 1..]
  {
  }

  lemma {:induction false} FlatMapAppend<T, U>(a: seq<T>, b: seq<T>, f: T -> seq<U>)
    ensures FlatMap(a + b, f) == FlatMap(a, f) + FlatMap(b, f)
    decreases |b|
  {
    if b == [] {
      assert a + b == a;
    } else {
      InitOfAppend(a, b);
      FlatMapAppend(a, b[..|b| - 1], f);
    }
  }

  lemma FlatMapSingleton<T, U>(x: T, f: T -> seq<U>)
    ensures FlatMap([x], f) == f(x)
  {
    assert [x][..0] == [];
  }

  lemma {:induction false} FlatMapMember<T, U>(xs: seq<T>, f: T -> seq<U>, y: U)
    ensures y in FlatMap(xs, f) <==> exists i :: 0 <= i < |xs| && y in f(xs[i])
    decreases |xs|
  {
    if xs != [] {
      var n := |xs| - 1;
      FlatMapMember(xs[..n], f, y);
      if y in FlatMap(xs[..n], f) {
        var i :| 0 <= i < n && y in f(xs[..n][i]);
        assert xs[..n][i] == xs[i];
      }
      if exists i :: 0 <= i < |xs| && y in f(xs[i]) {
        var i :| 0 <= i < |xs| && y in f(xs[i]);
        if i < n {
          assert xs[..n][i] == xs[i];
        }
      }
    }
  }

  lemma {:induction false} FlatMapAllEmpty<T, U>(xs: seq<T>, f: T -> seq<U>)
    requires forall i :: 0 <= i < |xs| ==> f(xs[i]) == []
    ensures FlatMap(xs, f) == []
    decreases |xs|
  {
    if xs != [] {
      FlatMapAllEmpty(xs[..|xs| - 1], f);
    }
  }

  predicate NoDuplicates<T(==)>(s: seq<T>)
  {
    forall i, j :: 0 <= i < j < |s| ==> s[i] != s[j]
  }

  lemma FlatMapCons<T, U>(x: T, xs: seq<T>, f: T -> seq<U>)
    ensures FlatMap([x] + xs, f) == f(x) + FlatMap(xs, f)
  {
    FlatMapAppend([x], xs, f);
    FlatMapSingleton(x, f);
  }

  /** Appending an element that is not there keeps a sequence free of duplicates. */
  lemma AppendNoDuplicates<T>(s: seq<T>, x: T)
    requires NoDuplicates(s) && x !in s
    ensures NoDuplicates(s + [x])
  {
  }

  lemma {:induction false} NoDuplicatesCount<T>(s: seq<T>, x: T)
    requires NoDuplicates(s)
    ensures multiset(s)[x] <= 1
    decreases |s|
  {
    if s != [] {
      var init, last := s[..|s| - 1], s[|s| - 1];
      assert s == init + [last];
      NoDuplicatesCount(init, x);
      if last == x {
        assert x !in init by {
          forall i | 0 <= i < |init|
            ensures init[i] != x
          {
            assert init[i] == s[i];
          }
        }
      }
    }
  }

  lemma RepeatedCount<T>(t: seq<T>, i: nat, j: nat)
    requires i < j < |t| && t[i] == t[j]
    ensures multiset(t)[t[i]] >= 2
  {
    assert t == t[..j] + t[j..];
    assert t[i] == t[..j][i];
    assert t[j] == t[j..][0];
  }

  /** A permutation of a sequence without duplicates has none either. */
  lemma PermutationNoDuplicates<T>(s: seq<T>, t: seq<T>)
    requires NoDuplicates(s) && multiset(s) == multiset(t)
    ensures NoDuplicates(t)
  {
    forall i, j | 0 <= i < j < |t|
      ensures t[i] != t[j]
    {
      NoDuplicatesCount(s, t[i]);
      if t[i] == t[j] {
        RepeatedCount(t, i, j);
      }
    }
  }

  /** Sequences with the same multiset have the same members. */
  lemma SameMembers<T>(s: seq<T>, t: seq<T>)
    requires multiset(s) == multiset(t)
    ensures forall x :: x in s <==> x in t
  {
    forall x
      ensures x in s <==> x in t
    {
      assert x in s <==> x in multiset(s);
      assert x in t <==> x in multiset(t);
    }
  }
}
