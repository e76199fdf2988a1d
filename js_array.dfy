/**
 * The array methods the core relies on, as functions over sequences: `Array.prototype.filter`,
 * `map`, `find`, `some` and `flat`.
 */
module JsArray {
  import opened Options

  /** `a` can be obtained from `b` by deleting elements, keeping the order of the rest. */
  ghost predicate Subsequence<T>(a: seq<T>, b: seq<T>)
    decreases |b|
  {
    a == [] || (b != [] && ((a[0] == b[0] && Subsequence(a[1..], b[1..])) || Subsequence(a, b[1..])))
  }

  /** `s.filter(keep)`: the elements satisfying `keep`, in their original order (see `FilterFacts`). */
  function Filter<T>(s: seq<T>, keep: T -> bool): seq<T>
  {
    if s == [] then []
    else if keep(s[0]) then [s[0]] + Filter(s[1..], keep)
    else Filter(s[1..], keep)
  }

  /**
   * The filtered array holds each kept element as often as the array does and no other element, it
   * is a subsequence of the array, and it is no longer.
   */
  lemma {:induction false} FilterFacts<T(!new)>(s: seq<T>, keep: T -> bool)
    ensures forall x :: multiset(Filter(s, keep))[x] == if keep(x) then multiset(s)[x] else 0
    ensures forall i :: 0 <= i < |Filter(s, keep)| ==> keep(Filter(s, keep)[i])
    ensures Subsequence(Filter(s, keep), s)
    ensures |Filter(s, keep)| <= |s|
  {
    if s != [] {
      FilterFacts(s[1..], keep);
      assert s == [s[0]] + s[1..];
    }
  }

  /** Filtering with a predicate that holds of every element gives the sequence back. */
  lemma {:induction false} FilterKeepsAll<T(!new)>(s: seq<T>, keep: T -> bool)
    requires forall i :: 0 <= i < |s| ==> keep(s[i])
    ensures Filter(s, keep) == s
  {
    if s != [] {
      FilterKeepsAll(s[1..], keep);
    }
  }

  /** `s.map(f)`. */
  function Map<T, U>(s: seq<T>, f: T -> U): (r: seq<U>)
    ensures |r| == |s|
    ensures forall i :: 0 <= i < |s| ==> r[i] == f(s[i])
  {
    if s == [] then [] else [f(s[0])] + Map(s[1..], f)
  }

  /** `s.find(p)`: the first element satisfying `p`, if any (see `FindFacts`). */
  function Find<T>(s: seq<T>, p: T -> bool): Option<T>
  {
    if s == [] then None
    else if p(s[0]) then Some(s[0])
    else Find(s[1..], p)
  }

  /** `Find` gives nothing exactly when no element satisfies `p`, and otherwise the first that does. */
  lemma {:induction false} FindFacts<T>(s: seq<T>, p: T -> bool)
    ensures Find(s, p).None? <==> forall i :: 0 <= i < |s| ==> !p(s[i])
    ensures Find(s, p).Some? ==>
      exists i :: 0 <= i < |s| && s[i] == Find(s, p).value && p(s[i]) && forall j :: 0 <= j < i ==> !p(s[j])
  {
    if s != [] && !p(s[0]) {
      FindFacts(s[1..], p);
      if Find(s, p).Some? {
        var i :| 0 <= i < |s[1..]| && s[1..][i] == Find(s, p).value && p(s[1..][i])
          && forall j :: 0 <= j < i ==> !p(s[1..][j]);
        assert s[i + 1] == Find(s, p).value && forall j :: 0 <= j < i + 1 ==> !p(s[j]);
      }
    }
  }

  /** `s.some(p)`: some element satisfies `p`. */
  predicate Any<T>(s: seq<T>, p: T -> bool)
  {
    exists i :: 0 <= i < |s| && p(s[i])
  }

  /** `s.flat()` for an array of arrays: the inner arrays concatenated in order (see `FlatFacts`). */
  function Flat<T>(s: seq<seq<T>>): seq<T>
  {
    if s == [] then [] else s[0] + Flat(s[1..])
  }

  /** An element is in the flattened array exactly when it is in one of the inner arrays. */
  lemma {:induction false} FlatFacts<T>(s: seq<seq<T>>)
    ensures forall x :: x in Flat(s) <==> exists i :: 0 <= i < |s| && x in s[i]
  {
    if s != [] {
      FlatFacts(s[1..]);
      assert forall i :: 1 <= i < |s| ==> s[1..][i - 1] == s[i];
    }
  }
}
