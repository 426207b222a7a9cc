/** Order-preserving sequence operations shared by the list-building code:
    filtering, stable partitioning, mapping, flattening, distinctness. */
module Sequences {

  /** `Array.prototype.filter` / a Python list comprehension with an `if`:
      the elements of `s` satisfying `p`, in their original order. */
  function Filter<T>(s: seq<T>, p: T -> bool): (r: seq<T>)
    ensures |r| <= |s|
    ensures forall i :: 0 <= i < |r| ==> r[i] in s && p(r[i])
    ensures forall i :: 0 <= i < |s| && p(s[i]) ==> s[i] in r
  {
    if |s| == 0 then []
    else
      assert s == s[..|s| - 1] + [s[|s| - 1]];
      Filter(s[..|s| - 1], p) + (if p(s[|s| - 1]) then [s[|s| - 1]] else [])
  }

  /** The complement of a predicate. */
  function Not<T>(p: T -> bool): T -> bool {
    x => !p(x)
  }

  /** A stable sort whose comparator only separates two classes: the elements
      satisfying `p` first, each class in its original order. */
  function StablePartition<T>(s: seq<T>, p: T -> bool): seq<T> {
    Filter(s, p) + Filter(s, Not(p))
  }

  /** `xs.map(f)`: `f` applied to every element, in order. */
  function Map<A, B>(s: seq<A>, f: A -> B): (r: seq<B>)
    ensures |r| == |s|
    ensures forall i :: 0 <= i < |s| ==> r[i] == f(s[i])
  {
    if |s| == 0 then [] else Map(s[..|s| - 1], f) + [f(s[|s| - 1])]
  }

  /** The concatenation of a sequence of sequences, in order. */
  function Flatten<T>(ss: seq<seq<T>>): seq<T> {
    if |ss| == 0 then [] else Flatten(ss[..|ss| - 1]) + ss[|ss| - 1]
  }

  /** No element occurs twice. */
  predicate Distinct<T(==)>(s: seq<T>) {
    forall i, j :: 0 <= i < j < |s| ==> s[i] != s[j]
  }

  lemma {:induction false} FilterConcat<T>(a: seq<T>, b: seq<T>, p: T -> bool)
    ensures Filter(a + b, p) == Filter(a, p) + Filter(b, p)
    decreases |b|
  {
    if |b| == 0 {
      assert a + b == a;
    } else {
      var n := |b| - 1;
      assert (a + b)[..|a + b| - 1] == a + b[..n];
      assert (a + b)[|a + b| - 1] == b[n];
      FilterConcat(a, b[..n], p);
    }
  }

  /** Filtering the already filtered sequence changes nothing. */
  lemma {:induction false} FilterIdempotent<T>(s: seq<T>, p: T -> bool)
    ensures Filter(Filter(s, p), p) == Filter(s, p)
    decreases |s|
  {
    if |s| > 0 {
      var n := |s| - 1;
      var f := Filter(s[..n], p);
      FilterIdempotent(s[..n], p);
      if p(s[n]) {
        var g := f + [s[n]];
        assert g[..|g| - 1] == f;
        assert Filter(g, p) == Filter(f, p) + [s[n]];
      } else {
        assert f + [] == f;
      }
    }
  }

  lemma FilterSingleton<T>(x: T, p: T -> bool)
    ensures Filter([x], p) == if p(x) then [x] else []
  {
    assert [x][..0] == [];
  }

  /** Nothing survives a filter that no element passes. */
  lemma {:induction false} FilterNone<T>(s: seq<T>, p: T -> bool)
    requires forall i :: 0 <= i < |s| ==> !p(s[i])
    ensures Filter(s, p) == []
    decreases |s|
  {
    if |s| > 0 {
      FilterNone(s[..|s| - 1], p);
    }
  }

  /** Filtering by the complement leaves nothing of the filtered sequence. */
  lemma FilterComplementEmpty<T>(s: seq<T>, p: T -> bool)
    ensures Filter(Filter(s, p), Not(p)) == []
  {
    FilterNone(Filter(s, p), Not(p));
  }

  /** Each element occurs in the filtered sequence exactly as often as in the
      input when it satisfies `p`, and not at all otherwise: duplicates are
      kept, nothing is invented. */
  lemma {:induction false} FilterCount<T>(s: seq<T>, p: T -> bool, x: T)
    ensures multiset(Filter(s, p))[x] == if p(x) then multiset(s)[x] else 0
    decreases |s|
  {
    if |s| > 0 {
      var n := |s| - 1;
      assert s == s[..n] + [s[n]];
      FilterCount(s[..n], p, x);
    }
  }

  /** Filtering by `p` and by its complement splits the input without loss. */
  lemma {:induction false} FilterSplitsMultiset<T>(s: seq<T>, p: T -> bool)
    ensures multiset(Filter(s, p)) + multiset(Filter(s, Not(p))) == multiset(s)
    decreases |s|
  {
    if |s| > 0 {
      var n := |s| - 1;
      assert s == s[..n] + [s[n]];
      FilterSplitsMultiset(s[..n], p);
    }
  }

  /** The stable partition is a permutation of its input. */
  lemma StablePartitionPermutes<T>(s: seq<T>, p: T -> bool)
    ensures multiset(StablePartition(s, p)) == multiset(s)
    ensures |StablePartition(s, p)| == |s|
  {
    FilterSplitsMultiset(s, p);
    assert |multiset(StablePartition(s, p))| == |multiset(s)|;
  }

  /** Every element satisfying `p` comes before every element that does not. */
  lemma StablePartitionOrdered<T>(s: seq<T>, p: T -> bool)
    ensures forall i, j :: 0 <= i < j < |StablePartition(s, p)| && !p(StablePartition(s, p)[i])
              ==> !p(StablePartition(s, p)[j])
  {
    var yes, no := Filter(s, p), Filter(s, Not(p));
    var r := StablePartition(s, p);
    assert forall k :: 0 <= k < |yes| ==> r[k] == yes[k] && p(r[k]);
    assert forall k :: |yes| <= k < |r| ==> r[k] == no[k - |yes|] && Not(p)(r[k]);
  }

  /** Inside each class the stable partition keeps the input order. */
  lemma StablePartitionKeepsOrder<T>(s: seq<T>, p: T -> bool)
    ensures Filter(StablePartition(s, p), p) == Filter(s, p)
    ensures Filter(StablePartition(s, p), Not(p)) == Filter(s, Not(p))
  {
    var yes, no := Filter(s, p), Filter(s, Not(p));
    FilterConcat(yes, no, p);
    FilterIdempotent(s, p);
    FilterNone(no, p);
    FilterConcat(yes, no, Not(p));
    FilterComplementEmpty(s, p);
    FilterIdempotent(s, Not(p));
  }

  lemma FlattenAppend<T>(ss: seq<seq<T>>, t: seq<T>)
    ensures Flatten(ss + [t]) == Flatten(ss) + t
  {
    assert (ss + [t])[..|ss|] == ss;
  }

  lemma {:induction false} FlattenPrepend<T>(t: seq<T>, ss: seq<seq<T>>)
    ensures Flatten([t] + ss) == t + Flatten(ss)
    decreases |ss|
  {
    if |ss| > 0 {
      var init := ss[..|ss| - 1];
      assert ([t] + ss)[..|ss|] == [t] + init;
      FlattenPrepend(t, init);
      assert ss == init + [ss[|ss| - 1]];
    }
  }

  lemma MapAppend<A, B>(s: seq<A>, x: A, f: A -> B)
    ensures Map(s + [x], f) == Map(s, f) + [f(x)]
  {
    assert (s + [x])[..|s|] == s;
  }

  /** The prefix through `i` filters to the prefix before `i`, followed by
      `s[i]` when it passes. */
  lemma FilterSnoc<T>(s: seq<T>, i: nat, p: T -> bool)
    requires i < |s|
    ensures Filter(s[..i + 1], p) == Filter(s[..i], p) + if p(s[i]) then [s[i]] else []
  {
    assert s[..i + 1][..i] == s[..i];
  }

  /** The filter is empty exactly when no element passes. */
  lemma FilterEmpty<T>(s: seq<T>, p: T -> bool)
    ensures |Filter(s, p)| == 0 <==> forall i :: 0 <= i < |s| ==> !p(s[i])
  {
    if |Filter(s, p)| > 0 {
      var x := Filter(s, p)[0];
      var j :| 0 <= j < |s| && s[j] == x;
    }
  }
}
