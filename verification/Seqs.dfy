/**
  The two array operations the handlers chain (`Array.prototype.filter` and
  `Array.prototype.map`), as functions on sequences, with the facts the
  rest of the model relies on: filtering keeps exactly the accepted elements
  in their original order, and both operations distribute over concatenation.
 */
module Seqs {

  function Filter<T>(s: seq<T>, p: T -> bool): (r: seq<T>)
    ensures |r| <= |s|
    ensures forall i :: 0 <= i < |r| ==> r[i] in s && p(r[i])
    ensures forall i :: 0 <= i < |s| && p(s[i]) ==> s[i] in r
  {
    if |s| == 0 then []
    else (if p(s[0]) then [s[0]] else []) + Filter(s[1..], p)
  }

  function Map<T, U>(s: seq<T>, f: T -> U): (r: seq<U>)
    ensures |r| == |s|
    ensures forall i :: 0 <= i < |s| ==> r[i] == f(s[i])
  {
    if |s| == 0 then [] else [f(s[0])] + Map(s[1..], f)
  }

  /** Filtering a concatenation filters each part: order is preserved. */
  lemma {:induction false} FilterAppend<T>(a: seq<T>, b: seq<T>, p: T -> bool)
    ensures Filter(a + b, p) == Filter(a, p) + Filter(b, p)
  {
    if |a| == 0 {
      assert a + b == b;
    } else {
      assert (a + b)[0] == a[0];
      assert (a + b)[1..] == a[1..] + b;
      FilterAppend(a[1..], b, p);
    }
  }

  /** Filtering a one-element sequence keeps it exactly when it is accepted. */
  lemma FilterSingleton<T>(x: T, p: T -> bool)
    ensures Filter([x], p) == if p(x) then [x] else []
  {
    assert [x][1..] == [];
  }

  /** Filtering again with a weaker predicate changes nothing. */
  lemma {:induction false} FilterFilter<T>(s: seq<T>, p: T -> bool, q: T -> bool)
    requires forall i :: 0 <= i < |s| && p(s[i]) ==> q(s[i])
    ensures Filter(Filter(s, q), p) == Filter(s, p)
  {
    if |s| > 0 {
      FilterFilter(s[1..], p, q);
      if q(s[0]) {
        assert Filter(s, q) == [s[0]] + Filter(s[1..], q);
        FilterAppend([s[0]], Filter(s[1..], q), p);
        FilterSingleton(s[0], p);
      } else {
        assert !p(s[0]);
        assert Filter(s, q) == Filter(s[1..], q);
        assert Filter(s, p) == Filter(s[1..], p);
      }
    }
  }

  lemma {:induction false} MapAppend<T, U>(a: seq<T>, b: seq<T>, f: T -> U)
    ensures Map(a + b, f) == Map(a, f) + Map(b, f)
  {
    if |a| == 0 {
      assert a + b == b;
    } else {
      assert (a + b)[1..] == a[1..] + b;
      MapAppend(a[1..], b, f);
    }
  }
}
