/**
 * The array built-ins the core uses: `filter`, and the
 * "forEach, try, push" idiom that keeps the elements for which a step
 * succeeds. All are defined from the end of the sequence, which is the
 * order in which the loops of the model extend their results.
 */
module Seqs {
  import opened Wrappers

  /** `s.filter(p)` */
  function Filter<T>(s: seq<T>, p: T -> bool): (r: seq<T>)
    ensures |r| <= |s|
    ensures forall x <- r :: x in s && p(x)
    ensures forall x <- s :: p(x) ==> x in r
  {
    if s == [] then []
    else
      var last := s[|s| - 1];
      Filter(s[..|s| - 1], p) + (if p(last) then [last] else [])
  }

  /** a is obtained from b by deleting elements, keeping the order of the rest. */
  ghost predicate IsSubsequence<T>(a: seq<T>, b: seq<T>)
    decreases |b|
  {
    if a == [] then true
    else if b == [] then false
    else if a[|a| - 1] == b[|b| - 1] && IsSubsequence(a[..|a| - 1], b[..|b| - 1]) then true
    else IsSubsequence(a, b[..|b| - 1])
  }

  lemma {:induction false} FilterIsSubsequence<T>(s: seq<T>, p: T -> bool)
    ensures IsSubsequence(Filter(s, p), s)
  {
    if s != [] {
      var init, last := s[..|s| - 1], s[|s| - 1];
      FilterIsSubsequence(init, p);
      var f := Filter(s, p);
      if p(last) {
        assert f[..|f| - 1] == Filter(init, p);
      } else {
        assert f == Filter(init, p);
        SubsequenceOfLonger(f, init, last);
      }
    }
  }

  lemma {:induction false} SubsequenceOfLonger<T>(a: seq<T>, b: seq<T>, x: T)
    requires IsSubsequence(a, b)
    ensures IsSubsequence(a, b + [x])
  {
    assert (b + [x])[..|b|] == b;
  }

  /** What a filter drops and what it keeps add up to the input. */
  lemma {:induction false} FilterPartition<T>(s: seq<T>, p: T -> bool, q: T -> bool)
    requires forall x :: q(x) == !p(x)
    ensures |Filter(s, p)| + |Filter(s, q)| == |s|
  {
    if s != [] {
      FilterPartition(s[..|s| - 1], p, q);
    }
  }

  /**
   * The results of the elements for which `step` succeeds, in order: the
   * `forEach` loop that pushes the result of a `try` and skips on `catch`.
   */
  function FilterMap<T, U>(s: seq<T>, step: T -> Option<U>): (r: seq<U>)
    ensures |r| <= |s|
  {
    if s == [] then []
    else
      var last := step(s[|s| - 1]);
      FilterMap(s[..|s| - 1], step) + (if last.Some? then [last.value] else [])
  }

  /**
   * `forEach` with a `try` around each element: the results of the elements
   * for which `step` succeeds are pushed, the others skipped.
   */
  method CollectResults<T, U>(s: seq<T>, step: T -> Option<U>) returns (r: seq<U>)
    ensures r == FilterMap(s, step)
  {
    r := [];
    for i := 0 to |s|
      invariant r == FilterMap(s[..i], step)
    {
      var result := step(s[i]);
      if result.Some? {
        r := r + [result.value];
      }
      FilterMapPrefix(s, i, step);
    }
    assert s[..|s|] == s;
  }

  /** The prefix of length i + 1 adds the result of element i, if any. */
  lemma FilterMapPrefix<T, U>(s: seq<T>, i: nat, step: T -> Option<U>)
    requires i < |s|
    ensures FilterMap(s[..i + 1], step) ==
            FilterMap(s[..i], step) + (if step(s[i]).Some? then [step(s[i]).value] else [])
  {
    assert s[..i + 1][..i] == s[..i];
  }

  /** idx lists, in increasing order, exactly the positions of s where step succeeds, and r their results. */
  ghost predicate Picks<T, U>(s: seq<T>, step: T -> Option<U>, r: seq<U>, idx: seq<nat>) {
    && |idx| == |r|
    && (forall k :: 0 <= k < |idx| ==> idx[k] < |s| && step(s[idx[k]]) == Some(r[k]))
    && (forall k, l :: 0 <= k < l < |idx| ==> idx[k] < idx[l])
    && (forall i :: 0 <= i < |s| && step(s[i]).Some? ==> i in idx)
  }

  /** FilterMap keeps one result per succeeding element, in input order, and no others: idx lists their positions. */
  lemma {:induction false} FilterMapIndices<T, U>(s: seq<T>, step: T -> Option<U>) returns (idx: seq<nat>)
    ensures Picks(s, step, FilterMap(s, step), idx)
  {
    if s == [] {
      idx := [];
    } else {
      var init, last := s[..|s| - 1], s[|s| - 1];
      var prev := FilterMapIndices(init, step);
      var r, rp := FilterMap(s, step), FilterMap(init, step);
      assert r == rp + (if step(last).Some? then [step(last).value] else []);
      if step(last).Some? {
        idx := prev + [|s| - 1];
      } else {
        idx := prev;
      }
      forall k | 0 <= k < |idx|
        ensures idx[k] < |s| && step(s[idx[k]]) == Some(r[k])
      {
        if k < |prev| {
          assert idx[k] == prev[k] && r[k] == rp[k] && s[prev[k]] == init[prev[k]];
        }
      }
      forall i | 0 <= i < |s| && step(s[i]).Some?
        ensures i in idx
      {
        if i < |s| - 1 {
          assert s[i] == init[i];
          assert i in prev;
        }
      }
    }
  }
}
