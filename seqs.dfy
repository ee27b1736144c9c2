/** Sequence helpers shared by the pipeline model: Python's list slicing, list
    comprehensions with a condition, list concatenation over a list of lists,
    and "no duplicates". */
module Seqs {

  /** `s[:n]` in Python: the first `n` elements, or all of a shorter list. */
  function Take<T>(s: seq<T>, n: nat): (r: seq<T>)
    ensures |r| <= n && |r| <= |s|
    ensures |r| == if |s| <= n then |s| else n
    ensures r == s[..|r|]
    ensures |s| <= n ==> r == s
  {
    if |s| <= n then s else s[..n]
  }

  /** `[x for x in s if p(x)]` in Python. */
  function Filter<T>(s: seq<T>, p: T -> bool): seq<T>
  {
    if s == [] then [] else Filter(s[..|s| - 1], p) + (if p(s[|s| - 1]) then [s[|s| - 1]] else [])
  }

  /** The position of the first element of `s` satisfying `p`, or `|s|` when
      none does (a `for` loop that breaks at the first hit). */
  function FirstWhere<T>(s: seq<T>, p: T -> bool): (i: nat)
    ensures i <= |s|
    ensures i < |s| ==> p(s[i])
    ensures forall j :: 0 <= j < i ==> !p(s[j])
  {
    if s == [] then 0
    else if p(s[0]) then 0
    else
      var k := FirstWhere(s[1..], p);
      assert forall j :: 1 <= j <= k ==> s[j] == s[1..][j - 1];
      1 + k
  }

  /** The positions of `s` whose element satisfies `p`, in increasing order. */
  ghost function KeptIndices<T>(s: seq<T>, p: T -> bool): seq<nat>
  {
    if s == [] then [] else KeptIndices(s[..|s| - 1], p) + (if p(s[|s| - 1]) then [|s| - 1] else [])
  }

  predicate Distinct<T(==)>(s: seq<T>)
  {
    forall i, j :: 0 <= i < j < |s| ==> s[i] != s[j]
  }

  /** Concatenation of a list of lists (`for m in ms: out.extend(m)`). */
  function Flatten<T>(ms: seq<seq<T>>): seq<T>
  {
    if ms == [] then [] else Flatten(ms[..|ms| - 1]) + ms[|ms| - 1]
  }

  /** Filtering one more element of a prefix appends it when it is kept. */
  lemma FilterStep<T>(s: seq<T>, i: nat, p: T -> bool)
    requires i < |s|
    ensures Filter(s[..i + 1], p) == Filter(s[..i], p) + (if p(s[i]) then [s[i]] else [])
  {
    assert s[..i + 1][..i] == s[..i];
  }

  /** Extending the prefix by one element adds one to the count of kept
      elements exactly when the element is kept. */
  lemma FilterCountStep<T>(s: seq<T>, i: nat, p: T -> bool)
    requires i < |s|
    ensures |Filter(s[..i + 1], p)| == |Filter(s[..i], p)| + (if p(s[i]) then 1 else 0)
  {
    FilterStep(s, i, p);
  }

  /** Filtering distributes over concatenation. */
  lemma {:induction false} FilterAppend<T>(a: seq<T>, b: seq<T>, p: T -> bool)
    ensures Filter(a + b, p) == Filter(a, p) + Filter(b, p)
    decreases |b|
  {
    if b == [] {
      assert a + b == a;
    } else {
      var b' := b[..|b| - 1];
      FilterAppend(a, b', p);
      assert (a + b)[..|a + b| - 1] == a + b';
    }
  }

  /** Nothing survives a filter that every element fails. */
  lemma {:induction false} FilterNone<T>(s: seq<T>, p: T -> bool)
    requires forall i :: 0 <= i < |s| ==> !p(s[i])
    ensures Filter(s, p) == []
  {
    if s != [] {
      FilterNone(s[..|s| - 1], p);
    }
  }

  /** A filter keeps exactly the elements that satisfy the condition. */
  lemma {:induction false} FilterMembership<T>(s: seq<T>, p: T -> bool, x: T)
    ensures x in Filter(s, p) <==> x in s && p(x)
  {
    if s != [] {
      FilterMembership(s[..|s| - 1], p, x);
      assert s == s[..|s| - 1] + [s[|s| - 1]];
    }
  }

  /** A filter is the order-preserving subsequence of the positions whose
      element satisfies the condition: the kept positions increase, each kept
      element is the input's element at that position, and a position is kept
      exactly when its element satisfies the condition. */
  lemma {:induction false} FilterKeepsOrder<T>(s: seq<T>, p: T -> bool)
    ensures var f, k := Filter(s, p), KeptIndices(s, p);
      && |f| == |k|
      && (forall i :: 0 <= i < |k| ==> k[i] < |s| && f[i] == s[k[i]])
      && (forall i, j :: 0 <= i < j < |k| ==> k[i] < k[j])
      && (forall n :: 0 <= n < |s| ==> (n in k <==> p(s[n])))
  {
    if s != [] {
      var s', last := s[..|s| - 1], |s| - 1;
      FilterKeepsOrder(s', p);
      var f', k' := Filter(s', p), KeptIndices(s', p);
      var f, k := Filter(s, p), KeptIndices(s, p);
      assert f == f' + (if p(s[last]) then [s[last]] else []);
      assert k == k' + (if p(s[last]) then [last] else []);
      assert |f| == |k|;
      forall i | 0 <= i < |k|
        ensures k[i] < |s| && f[i] == s[k[i]]
      {
        if i < |k'| {
          assert k[i] == k'[i] && f[i] == f'[i];
          assert s'[k'[i]] == s[k'[i]];
        }
      }
      forall i, j | 0 <= i < j < |k|
        ensures k[i] < k[j]
      {
        if j < |k'| {
          assert k[i] == k'[i] && k[j] == k'[j];
        } else {
          assert k[i] == k'[i] && k'[i] < |s'|;
        }
      }
      forall n | 0 <= n < |s|
        ensures n in k <==> p(s[n])
      {
        if n < last {
          assert s'[n] == s[n];
          assert n in k <==> n in k';
        } else {
          assert forall i :: 0 <= i < |k'| ==> k'[i] != n;
        }
      }
    }
  }

  lemma {:induction false} FlattenAppend<T>(ms: seq<seq<T>>, m: seq<T>)
    ensures Flatten(ms + [m]) == Flatten(ms) + m
  {
    assert (ms + [m])[..|ms|] == ms;
  }

  /** An element of the flattened list comes from one of the lists. */
  lemma {:induction false} FlattenMembership<T>(ms: seq<seq<T>>, x: T)
    ensures x in Flatten(ms) <==> exists i :: 0 <= i < |ms| && x in ms[i]
  {
    if ms != [] {
      var ms' := ms[..|ms| - 1];
      FlattenMembership(ms', x);
      if x in Flatten(ms') {
        var i :| 0 <= i < |ms'| && x in ms'[i];
        assert ms[i] == ms'[i];
      }
      if i :| 0 <= i < |ms| && x in ms[i] {
        if i < |ms'| {
          assert ms'[i] == ms[i];
        }
      }
    }
  }
}
