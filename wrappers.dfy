/** Optional values and a generic first-match search, shared by every module. */
module Wrappers {

  datatype Option<T> = None | Some(value: T)

  /** The outcome of an operation that the source aborts with an exception
      carrying `message` (a `ValueError` unless stated otherwise). */
  datatype Outcome = Pass | Fail(message: string)

  /** A value, or the message of the exception raised instead of returning it. */
  datatype Result<T> = Ok(value: T) | Err(message: string)

  /** The index of the first element of `s` that satisfies `p`, as Python's
      `next((x for x in s if p(x)), None)` and every `for ... if ...: return`
      search loop of the application compute it. */
  function FirstIndex<T>(s: seq<T>, p: T -> bool): (r: Option<nat>)
    ensures r.Some? ==> r.value < |s| && p(s[r.value])
    ensures r.Some? ==> forall j :: 0 <= j < r.value ==> !p(s[j])
    ensures r.None? <==> forall j :: 0 <= j < |s| ==> !p(s[j])
  {
    if s == [] then None
    else if p(s[0]) then Some(0)
    else match FirstIndex(s[1..], p)
      case None => None
      case Some(k) => Some(k + 1)
  }

  /** The first element that satisfies `p`, if any. */
  function First<T>(s: seq<T>, p: T -> bool): (r: Option<T>)
    ensures r.Some? ==> r.value in s && p(r.value)
    ensures r.None? <==> forall x :: x in s ==> !p(x)
  {
    match FirstIndex(s, p)
    case None => None
    case Some(i) => Some(s[i])
  }

  /** The search either stops at the head or goes on in the tail. */
  lemma FirstCons<T>(s: seq<T>, p: T -> bool)
    requires s != []
    ensures First(s, p) == if p(s[0]) then Some(s[0]) else First(s[1..], p)
  {
    if !p(s[0]) {
      match FirstIndex(s[1..], p)
      case None =>
      case Some(k) => assert s[k + 1] == s[1..][k];
    }
  }

  /** The elements of `s` that satisfy `p`, in their order in `s`, as a list
      comprehension `[x for x in s if p(x)]` computes them. */
  function Filter<T>(s: seq<T>, p: T -> bool): (r: seq<T>)
    ensures |r| <= |s|
    ensures forall x :: x in r ==> x in s && p(x)
    ensures forall x :: x in s && p(x) ==> x in r
  {
    if s == [] then []
    else Filter(s[..|s| - 1], p) + (if p(s[|s| - 1]) then [s[|s| - 1]] else [])
  }

  /** Nothing passes the filter when no element satisfies the predicate. */
  lemma {:induction false} FilterNone<T>(s: seq<T>, p: T -> bool)
    requires forall x :: x in s ==> !p(x)
    ensures Filter(s, p) == []
  {
    if s != [] {
      FilterNone(s[..|s| - 1], p);
    }
  }

  /** Filtering distributes over concatenation: the filter keeps the order of `s`. */
  lemma {:induction false} FilterAppend<T>(a: seq<T>, b: seq<T>, p: T -> bool)
    ensures Filter(a + b, p) == Filter(a, p) + Filter(b, p)
  {
    if b != [] {
      assert (a + b)[..|a + b| - 1] == a + b[..|b| - 1];
      FilterAppend(a, b[..|b| - 1], p);
    } else {
      assert a + b == a;
    }
  }
}
