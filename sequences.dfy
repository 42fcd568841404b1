/** The array operations the storefront relies on (`filter`, `find`), over sequences. */
module Sequences {
  import opened Wrappers

  /** `a` can be obtained from `b` by deleting elements: the order of `b` is kept. */
  predicate IsSubsequence<T(==)>(a: seq<T>, b: seq<T>)
    decreases |b|
  {
    a == [] || (b != [] && if a[0] == b[0] then IsSubsequence(a[1..], b[1..]) else IsSubsequence(a, b[1..]))
  }

  /** Every list is a subsequence of itself. */
  lemma {:induction false} SubsequenceOfItself<T>(s: seq<T>)
    ensures IsSubsequence(s, s)
  {
    if s != [] {
      SubsequenceOfItself(s[1..]);
    }
  }

  /** `Array.prototype.filter`: the elements of `s` that satisfy `keep`, in their original order. */
  function Filter<T>(s: seq<T>, keep: T -> bool): (r: seq<T>)
    ensures |r| <= |s|
  {
    if s == [] then []
    else
      var rest := Filter(s[1..], keep);
      if keep(s[0]) then [s[0]] + rest else rest
  }

  /** The filtered list holds exactly the elements that satisfy `keep`... */
  lemma {:induction false} FilterMembers<T(!new)>(s: seq<T>, keep: T -> bool)
    ensures forall x :: x in Filter(s, keep) <==> x in s && keep(x)
  {
    if s != [] {
      FilterMembers(s[1..], keep);
      assert s == [s[0]] + s[1..];
    }
  }

  /** ...and keeps them in the order they had. */
  lemma {:induction false} FilterIsSubsequence<T(!new)>(s: seq<T>, keep: T -> bool)
    ensures IsSubsequence(Filter(s, keep), s)
  {
    if s != [] {
      FilterIsSubsequence(s[1..], keep);
      var rest := Filter(s[1..], keep);
      if !keep(s[0]) && rest != [] {
        FilterMembers(s[1..], keep);
        assert rest[0] in rest;
      }
    }
  }

  /** Filtering keeps every copy of a kept value and drops every copy of the others. */
  lemma {:induction false} FilterCount<T(!new)>(s: seq<T>, keep: T -> bool, x: T)
    ensures multiset(Filter(s, keep))[x] == if keep(x) then multiset(s)[x] else 0
  {
    if s != [] {
      FilterCount(s[1..], keep, x);
      assert s == [s[0]] + s[1..];
    }
  }

  /** `Array.prototype.find`: the first element of `s` that satisfies `test`, if there is one. */
  function Find<T(==)>(s: seq<T>, test: T -> bool): (r: Option<T>)
    ensures r.None? <==> forall i :: 0 <= i < |s| ==> !test(s[i])
    ensures r.Some? ==> exists i :: 0 <= i < |s| && s[i] == r.value && test(s[i]) && forall j :: 0 <= j < i ==> !test(s[j])
  {
    if s == [] then None
    else if test(s[0]) then Some(s[0])
    else
      var r := Find(s[1..], test);
      if r.Some? then
        var i :| 0 <= i < |s[1..]| && s[1..][i] == r.value && test(s[1..][i]) && forall j :: 0 <= j < i ==> !test(s[1..][j]);
        assert s[i + 1] == r.value && forall j :: 0 <= j < i + 1 ==> !test(s[j]);
        r
      else r
  }

  /** One step of `filter`, on the suffix of `s` that starts at `k`. */
  lemma FilterSuffix<T(!new)>(s: seq<T>, keep: T -> bool, k: nat)
    requires k < |s|
    ensures Filter(s[k..], keep) == if keep(s[k]) then [s[k]] + Filter(s[k + 1..], keep) else Filter(s[k + 1..], keep)
  {
    assert s[k..][1..] == s[k + 1..];
  }
}
