/** Order-preserving filtering, the shape of every list comprehension with an `if` in the backend. */
module Seqs {

  /** `[x for x in s if p(x)]`, built from the back the way an appending loop builds it. */
  function Filter<T(==)>(s: seq<T>, p: T -> bool): (r: seq<T>)
    ensures |r| <= |s|
    ensures forall i :: 0 <= i < |r| ==> r[i] in s && p(r[i])
    ensures forall i :: 0 <= i < |s| && p(s[i]) ==> s[i] in r
    decreases |s|
  {
    if s == [] then []
    else
      var init, last := s[..|s| - 1], s[|s| - 1];
      assert s == init + [last];
      Filter(init, p) + (if p(last) then [last] else [])
  }

  /** One more element at the end extends the filtered list by that element exactly when it passes. */
  lemma FilterSnoc<T>(s: seq<T>, x: T, p: T -> bool)
    ensures Filter(s + [x], p) == Filter(s, p) + (if p(x) then [x] else [])
  {
    assert (s + [x])[..|s + [x]| - 1] == s;
  }

  /** A prefix one element longer is the shorter prefix and that element. */
  lemma PrefixSnoc<T>(s: seq<T>, i: nat)
    requires i < |s|
    ensures s[..i + 1] == s[..i] + [s[i]]
  {
  }

  /** When every element passes, filtering changes nothing. */
  lemma {:induction false} FilterAll<T>(s: seq<T>, p: T -> bool)
    requires forall i :: 0 <= i < |s| ==> p(s[i])
    ensures Filter(s, p) == s
    decreases |s|
  {
    if s != [] {
      var init := s[..|s| - 1];
      assert s == init + [s[|s| - 1]];
      FilterAll(init, p);
    }
  }

  /** When no element passes, nothing is kept. */
  lemma {:induction false} FilterNone<T>(s: seq<T>, p: T -> bool)
    requires forall i :: 0 <= i < |s| ==> !p(s[i])
    ensures Filter(s, p) == []
    decreases |s|
  {
    if s != [] {
      FilterNone(s[..|s| - 1], p);
    }
  }

  /** `s` is `a` and `b` merged without reordering: every position of `s` came from exactly one of them. */
  predicate Interleaving<T(==)>(s: seq<T>, a: seq<T>, b: seq<T>)
    decreases |s|
  {
    if s == [] then a == [] && b == []
    else
      var x := s[|s| - 1];
      || (a != [] && a[|a| - 1] == x && Interleaving(s[..|s| - 1], a[..|a| - 1], b))
      || (b != [] && b[|b| - 1] == x && Interleaving(s[..|s| - 1], a, b[..|b| - 1]))
  }

  /** Filtering by a predicate and by its negation splits a sequence into two interleaved parts. */
  lemma {:induction false} FilterPartition<T>(s: seq<T>, p: T -> bool, q: T -> bool)
    requires forall x :: q(x) == !p(x)
    ensures Interleaving(s, Filter(s, p), Filter(s, q))
    decreases |s|
  {
    if s != [] {
      var init, last := s[..|s| - 1], s[|s| - 1];
      FilterPartition(init, p, q);
      var a, b := Filter(s, p), Filter(s, q);
      if p(last) {
        assert a == Filter(init, p) + [last] && b == Filter(init, q);
        assert a[..|a| - 1] == Filter(init, p);
      } else {
        assert b == Filter(init, q) + [last] && a == Filter(init, p);
        assert b[..|b| - 1] == Filter(init, q);
      }
    }
  }

  /** An interleaving accounts for every element exactly once. */
  lemma {:induction false} InterleavingCounts<T>(s: seq<T>, a: seq<T>, b: seq<T>)
    requires Interleaving(s, a, b)
    ensures |a| + |b| == |s|
    ensures multiset(a) + multiset(b) == multiset(s)
    decreases |s|
  {
    if s != [] {
      var init, x := s[..|s| - 1], s[|s| - 1];
      assert s == init + [x];
      if a != [] && a[|a| - 1] == x && Interleaving(init, a[..|a| - 1], b) {
        InterleavingCounts(init, a[..|a| - 1], b);
        assert a == a[..|a| - 1] + [x];
      } else {
        InterleavingCounts(init, a, b[..|b| - 1]);
        assert b == b[..|b| - 1] + [x];
      }
    }
  }
}
