/**
 * `Array.prototype.filter` and `Array.prototype.find` over sequences, with
 * the facts the callers rely on: what is kept, in what order, and how a
 * list splits between a predicate and its negation.
 */
module Seqs {
  import opened Wrappers

  /** `s.filter(keep)`: the elements satisfying `keep`, in their original order. */
  function Filter<T(==,!new)>(s: seq<T>, keep: T -> bool): (r: seq<T>)
    ensures |r| <= |s|
    ensures forall x :: x in r <==> x in s && keep(x)
    ensures forall k :: 0 <= k < |r| ==> keep(r[k])
  {
    if s == [] then []
    else if keep(s[0]) then [s[0]] + Filter(s[1..], keep)
    else Filter(s[1..], keep)
  }

  /** `a` can be obtained from `b` by deleting elements: the order of what is kept is kept. */
  predicate IsSubsequence<T(==)>(a: seq<T>, b: seq<T>)
    decreases |b|
  {
    if a == [] then true
    else if b == [] then false
    else if a[0] == b[0] then IsSubsequence(a[1..], b[1..])
    else IsSubsequence(a, b[1..])
  }

  lemma {:induction false} FilterIsSubsequence<T(!new)>(s: seq<T>, keep: T -> bool)
    ensures IsSubsequence(Filter(s, keep), s)
  {
    if s != [] {
      FilterIsSubsequence(s[1..], keep);
      if keep(s[0]) {
        assert ([s[0]] + Filter(s[1..], keep))[1..] == Filter(s[1..], keep);
      }
    }
  }

  /** Filtering distributes over concatenation. */
  lemma {:induction false} FilterAppend<T(!new)>(a: seq<T>, b: seq<T>, keep: T -> bool)
    ensures Filter(a + b, keep) == Filter(a, keep) + Filter(b, keep)
  {
    if a == [] {
      assert a + b == b;
    } else {
      var fa, fb := Filter(a[1..], keep), Filter(b, keep);
      calc {
        Filter(a + b, keep);
      == { assert (a + b)[0] == a[0] && (a + b)[1..] == a[1..] + b; }
        if keep(a[0]) then [a[0]] + Filter(a[1..] + b, keep) else Filter(a[1..] + b, keep);
      == { FilterAppend(a[1..], b, keep); }
        if keep(a[0]) then [a[0]] + (fa + fb) else fa + fb;
      == { assert [a[0]] + (fa + fb) == ([a[0]] + fa) + fb; }
        Filter(a, keep) + fb;
      }
    }
  }

  /**
   * A predicate and its negation split a list without loss: the two parts
   * together hold every element exactly as often as the list does.
   */
  lemma {:induction false} FilterPartition<T(!new)>(s: seq<T>, keep: T -> bool, drop: T -> bool)
    requires forall x :: drop(x) <==> !keep(x)
    ensures multiset(Filter(s, keep)) + multiset(Filter(s, drop)) == multiset(s)
    ensures |Filter(s, keep)| + |Filter(s, drop)| == |s|
  {
    if s != [] {
      FilterPartition(s[1..], keep, drop);
      assert s == [s[0]] + s[1..];
    }
  }

  /** Filtering with a test every element passes keeps the whole list. */
  lemma {:induction false} FilterAll<T(!new)>(s: seq<T>, keep: T -> bool)
    requires forall x :: x in s ==> keep(x)
    ensures Filter(s, keep) == s
  {
    if s != [] {
      FilterAll(s[1..], keep);
      assert [s[0]] + s[1..] == s;
    }
  }

  /** Filtering with a test no element passes keeps nothing. */
  lemma {:induction false} FilterNone<T(!new)>(s: seq<T>, keep: T -> bool)
    requires forall x :: x in s ==> !keep(x)
    ensures Filter(s, keep) == []
  {
    if s != [] {
      FilterNone(s[1..], keep);
    }
  }

  /** `s.find(test)`: the first element passing `test`, if any. */
  function Find<T(==)>(s: seq<T>, test: T -> bool): (r: Option<T>)
    ensures r.Some? ==> exists i :: 0 <= i < |s| && s[i] == r.value && test(s[i]) && forall j :: 0 <= j < i ==> !test(s[j])
    ensures r.None? ==> forall i :: 0 <= i < |s| ==> !test(s[i])
  {
    if s == [] then None
    else if test(s[0]) then
      assert 0 < |s| && s[0] == s[0] && test(s[0]);
      Some(s[0])
    else
      var r := Find(s[1..], test);
      if r.Some? then
        var i :| 0 <= i < |s[1..]| && s[1..][i] == r.value && test(s[1..][i]) && forall j :: 0 <= j < i ==> !test(s[1..][j]);
        assert s[i + 1] == r.value && forall j :: 0 <= j < i + 1 ==> !test(s[j]);
        r
      else r
  }

  /** The index of the first element passing `test`, if any. */
  function FirstIndex<T>(s: seq<T>, test: T -> bool): (r: Option<nat>)
    ensures r.Some? ==> r.value < |s| && test(s[r.value]) && forall j :: 0 <= j < r.value ==> !test(s[j])
    ensures r.None? ==> forall i :: 0 <= i < |s| ==> !test(s[i])
  {
    if s == [] then None
    else if test(s[0]) then Some(0)
    else
      match FirstIndex(s[1..], test)
      case Some(i) => Some(i + 1)
      case None => None
  }

  /** The index of the last element passing `test`, if any. */
  function LastIndex<T>(s: seq<T>, test: T -> bool): (r: Option<nat>)
    ensures r.Some? ==> r.value < |s| && test(s[r.value]) && forall j :: r.value < j < |s| ==> !test(s[j])
    ensures r.None? ==> forall i :: 0 <= i < |s| ==> !test(s[i])
  {
    if s == [] then None
    else if test(s[|s| - 1]) then Some(|s| - 1)
    else LastIndex(s[..|s| - 1], test)
  }
}
