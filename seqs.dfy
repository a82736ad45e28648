/** The array operations the stores are built from: `filter`, `find` and a `map`
    that rewrites only the elements a predicate selects. */
module Seqs {
  import opened Wrappers

  /** `s.filter(p)`: the elements of `s` that satisfy `p`, in their original order.
      The ensures give membership only; order and multiplicity are kept too,
      which `FilterAppend` states (a filter of `a + b` is the filter of `a`
      followed by the filter of `b`) and which, with the one-element cases read
      off the body, determines the result. Every getter below that is
      specified by membership is therefore an order-preserving filter. */
  function Filter<T(!new)>(s: seq<T>, p: T -> bool): (r: seq<T>)
    ensures |r| <= |s|
    ensures forall x :: x in r <==> x in s && p(x)
    ensures forall i :: 0 <= i < |r| ==> p(r[i])
  {
    if s == [] then []
    else if p(s[0]) then [s[0]] + Filter(s[1..], p)
    else Filter(s[1..], p)
  }

  /** Filtering distributes over concatenation, so the order of `s` is kept. */
  lemma {:induction false} FilterAppend<T(!new)>(a: seq<T>, b: seq<T>, p: T -> bool)
    ensures Filter(a + b, p) == Filter(a, p) + Filter(b, p)
  {
    if a == [] {
      assert a + b == b;
    } else {
      assert (a + b)[1..] == a[1..] + b;
      FilterAppend(a[1..], b, p);
    }
  }

  /** A filter that every element passes returns its input unchanged. */
  lemma {:induction false} FilterAll<T(!new)>(s: seq<T>, p: T -> bool)
    requires forall i :: 0 <= i < |s| ==> p(s[i])
    ensures Filter(s, p) == s
  {
    if s != [] {
      FilterAll(s[1..], p);
    }
  }

  /** A filter that no element passes returns the empty list. */
  lemma {:induction false} FilterNone<T(!new)>(s: seq<T>, p: T -> bool)
    requires forall i :: 0 <= i < |s| ==> !p(s[i])
    ensures Filter(s, p) == []
  {
    if s != [] {
      FilterNone(s[1..], p);
    }
  }

  /** The index of the first element of `s` satisfying `p`, if any. */
  function FindIndex<T>(s: seq<T>, p: T -> bool): (r: Option<nat>)
    ensures r.None? <==> forall i :: 0 <= i < |s| ==> !p(s[i])
    ensures r.Some? ==> r.value < |s| && p(s[r.value])
    ensures r.Some? ==> forall j :: 0 <= j < r.value ==> !p(s[j])
  {
    if s == [] then None
    else if p(s[0]) then Some(0)
    else match FindIndex(s[1..], p)
      case None => None
      case Some(k) => Some(k + 1)
  }

  /** `s.find(p)`: the first element of `s` satisfying `p`, or nothing. */
  function Find<T(!new)>(s: seq<T>, p: T -> bool): (r: Option<T>)
    ensures r.None? <==> forall x :: x in s ==> !p(x)
    ensures r.Some? ==> exists i :: 0 <= i < |s| && s[i] == r.value && p(s[i]) &&
                                    forall j :: 0 <= j < i ==> !p(s[j])
  {
    match FindIndex(s, p)
    case None => None
    case Some(i) => Some(s[i])
  }

  /** `s.map(x => p(x) ? f(x) : x)`: rewrites exactly the selected elements, in place. */
  function MapWhere<T>(s: seq<T>, p: T -> bool, f: T -> T): (r: seq<T>)
    ensures |r| == |s|
    ensures forall i :: 0 <= i < |s| ==> r[i] == (if p(s[i]) then f(s[i]) else s[i])
  {
    if s == [] then []
    else [if p(s[0]) then f(s[0]) else s[0]] + MapWhere(s[1..], p, f)
  }

  /** `s.map(f)`. */
  function Map<T, U>(s: seq<T>, f: T -> U): (r: seq<U>)
    ensures |r| == |s|
    ensures forall i :: 0 <= i < |s| ==> r[i] == f(s[i])
  {
    if s == [] then [] else [f(s[0])] + Map(s[1..], f)
  }

  /** Two lists of the same length whose elements agree on `p` position by
      position have their first `p`-element at the same index. */
  lemma {:induction false} FindIndexAgrees<T>(s: seq<T>, s': seq<T>, p: T -> bool)
    requires |s| == |s'|
    requires forall i :: 0 <= i < |s| ==> p(s[i]) == p(s'[i])
    ensures FindIndex(s, p) == FindIndex(s', p)
  {
    if s != [] && !p(s[0]) {
      FindIndexAgrees(s[1..], s'[1..], p);
    }
  }

  /** Filtering a filtered list is one filter by the conjunction. */
  lemma {:induction false} FilterFilter<T(!new)>(s: seq<T>, p: T -> bool, q: T -> bool, r: T -> bool)
    requires forall i :: 0 <= i < |s| ==> r(s[i]) == (p(s[i]) && q(s[i]))
    ensures Filter(Filter(s, p), q) == Filter(s, r)
  {
    if s != [] {
      FilterFilter(s[1..], p, q, r);
      if p(s[0]) {
        assert ([s[0]] + Filter(s[1..], p))[1..] == Filter(s[1..], p);
      }
    }
  }

  /** Two lists of the same length that agree, position by position, on which
      elements `p` keeps, and on the kept elements themselves, filter to the
      same list. */
  lemma {:induction false} FilterAgrees<T(!new)>(s: seq<T>, s': seq<T>, p: T -> bool)
    requires |s| == |s'|
    requires forall i :: 0 <= i < |s| ==> p(s[i]) == p(s'[i])
    requires forall i :: 0 <= i < |s| && p(s[i]) ==> s[i] == s'[i]
    ensures Filter(s, p) == Filter(s', p)
  {
    if s != [] {
      FilterAgrees(s[1..], s'[1..], p);
    }
  }

  /** Filters of two lists that agree position by position on `p` have the
      same length, whatever else differs. */
  lemma {:induction false} FilterLengthAgrees<T(!new)>(s: seq<T>, s': seq<T>, p: T -> bool)
    requires |s| == |s'|
    requires forall i :: 0 <= i < |s| ==> p(s[i]) == p(s'[i])
    ensures |Filter(s, p)| == |Filter(s', p)|
  {
    if s != [] {
      FilterLengthAgrees(s[1..], s'[1..], p);
    }
  }
}
