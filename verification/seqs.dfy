/** List operations the application performs through `Array.prototype`
    methods and database queries: filter, find-first, count and
    replace-in-place. */
module Seqs {
  import opened Base

  /** The elements of `s` satisfying `p`, in their original order. */
  function Filter<T>(s: seq<T>, p: T -> bool): (r: seq<T>)
    ensures |r| <= |s|
    ensures forall i :: 0 <= i < |r| ==> p(r[i])
    ensures forall i :: 0 <= i < |s| && p(s[i]) ==> s[i] in r
    ensures multiset(r) <= multiset(s)
  {
    if s == [] then []
    else
      var rest := Filter(s[1..], p);
      assert s == [s[0]] + s[1..];
      if p(s[0]) then [s[0]] + rest else rest
  }

  /** Filtering distributes over concatenation. */
  lemma {:induction false} FilterAppend<T>(a: seq<T>, b: seq<T>, p: T -> bool)
    ensures Filter(a + b, p) == Filter(a, p) + Filter(b, p)
  {
    if a == [] {
      assert a + b == b;
    } else {
      assert (a + b)[1..] == a[1..] + b;
      FilterAppend(a[1..], b, p);
    }
  }

  /** The number of elements of `s` satisfying `p`. */
  function Count<T>(s: seq<T>, p: T -> bool): (n: nat)
    ensures n <= |s|
    ensures n == 0 <==> forall i :: 0 <= i < |s| ==> !p(s[i])
  {
    if s == [] then 0
    else (if p(s[0]) then 1 else 0) + Count(s[1..], p)
  }

  /** Counting distributes over concatenation. */
  lemma {:induction false} CountAppend<T>(a: seq<T>, b: seq<T>, p: T -> bool)
    ensures Count(a + b, p) == Count(a, p) + Count(b, p)
  {
    if a == [] {
      assert a + b == b;
    } else {
      assert (a + b)[1..] == a[1..] + b;
      CountAppend(a[1..], b, p);
    }
  }

  /** Filtering keeps exactly the counted elements. */
  lemma {:induction false} FilterLengthIsCount<T>(s: seq<T>, p: T -> bool)
    ensures |Filter(s, p)| == Count(s, p)
  {
    if s != [] {
      FilterLengthIsCount(s[1..], p);
    }
  }

  /** The index of the first element satisfying `p`, or None when none does
      (`Array.prototype.findIndex` returning -1). */
  function FindIndex<T>(s: seq<T>, p: T -> bool): (r: Option<nat>)
    ensures r.Some? ==> r.value < |s| && p(s[r.value])
    ensures r.Some? ==> forall j :: 0 <= j < r.value ==> !p(s[j])
    ensures r.None? <==> forall j :: 0 <= j < |s| ==> !p(s[j])
  {
    if s == [] then None
    else if p(s[0]) then Some(0)
    else
      match FindIndex(s[1..], p)
      case None => None
      case Some(k) => Some(k + 1)
  }

  /** The first element satisfying `p` (`Array.prototype.find`). */
  function Find<T>(s: seq<T>, p: T -> bool): (r: Option<T>)
    ensures r.Some? ==> r.value in s && p(r.value)
    ensures r.None? <==> forall j :: 0 <= j < |s| ==> !p(s[j])
    ensures r.Some? ==> exists k :: 0 <= k < |s| && s[k] == r.value
                         && forall j :: 0 <= j < k ==> !p(s[j])
  {
    match FindIndex(s, p)
    case None => None
    case Some(k) => Some(s[k])
  }

  /** `s` with position `i` overwritten by `x`. */
  function ReplaceAt<T>(s: seq<T>, i: nat, x: T): (r: seq<T>)
    requires i < |s|
    ensures |r| == |s| && r[i] == x
    ensures forall j :: 0 <= j < |s| && j != i ==> r[j] == s[j]
  {
    s[..i] + [x] + s[i + 1..]
  }

  /** `s` without position `i`. */
  function RemoveAt<T>(s: seq<T>, i: nat): (r: seq<T>)
    requires i < |s|
    ensures |r| == |s| - 1
    ensures forall j :: 0 <= j < i ==> r[j] == s[j]
    ensures forall j :: i <= j < |r| ==> r[j] == s[j + 1]
  {
    s[..i] + s[i + 1..]
  }
}
