/** The two array helpers the source leans on, `Array.prototype.filter` and
    `Array.prototype.find`/`findIndex`, as functions on sequences. */
module Seqs {
  import opened Wrappers

  /** The elements of `s` that satisfy `p`, in their original order. */
  function Filter<T>(s: seq<T>, p: T -> bool): (r: seq<T>)
    ensures |r| <= |s|
    ensures forall i :: 0 <= i < |r| ==> r[i] in s && p(r[i])
    ensures forall i :: 0 <= i < |s| && p(s[i]) ==> s[i] in r
  {
    if s == [] then []
    else (if p(s[0]) then [s[0]] else []) + Filter(s[1..], p)
  }

  /** Filtering distributes over concatenation: the order of the kept
      elements is the order of the input. */
  lemma {:induction false} FilterAppend<T>(a: seq<T>, b: seq<T>, p: T -> bool)
    ensures Filter(a + b, p) == Filter(a, p) + Filter(b, p)
  {
    if a == [] {
      assert a + b == b;
    } else {
      assert (a + b)[1..] == a[1..] + b;
      FilterAppend(a[1..], b, p);
    }
  }

  /** Filtering keeps every element exactly when all of them satisfy `p`. */
  lemma {:induction false} FilterAll<T>(s: seq<T>, p: T -> bool)
    ensures Filter(s, p) == s <==> forall i :: 0 <= i < |s| ==> p(s[i])
  {
    if s != [] {
      FilterAll(s[1..], p);
      if !p(s[0]) {
        assert |Filter(s, p)| < |s|;
      }
    }
  }

  /** The index of the first element that satisfies `p`, if any. */
  function FirstIndex<T>(s: seq<T>, p: T -> bool): (r: Option<nat>)
    ensures r.Some? ==> r.value < |s| && p(s[r.value])
    ensures r.Some? ==> forall j :: 0 <= j < r.value ==> !p(s[j])
    ensures r.None? <==> forall j :: 0 <= j < |s| ==> !p(s[j])
  {
    if s == [] then None
    else if p(s[0]) then Some(0)
    else match FirstIndex(s[1..], p)
      case None => None
      case Some(k) => Some(k + 1)
  }

  /** `filter(p)[0]` and `find(p)` pick the same element. */
  lemma {:induction false} FilterHeadIsFirst<T>(s: seq<T>, p: T -> bool)
    ensures Filter(s, p) != [] <==> FirstIndex(s, p).Some?
    ensures Filter(s, p) != [] ==> Filter(s, p)[0] == s[FirstIndex(s, p).value]
  {
    if s != [] && !p(s[0]) {
      FilterHeadIsFirst(s[1..], p);
    }
  }

  /** The first match of `p` in `pre + [x] + post` is `x` when `x` matches
      and nothing in `pre` does. */
  lemma {:induction false} FirstIndexAfterPrefix<T>(pre: seq<T>, x: T, post: seq<T>, p: T -> bool)
    requires forall j :: 0 <= j < |pre| ==> !p(pre[j])
    requires p(x)
    ensures FirstIndex(pre + [x] + post, p) == Some(|pre|)
  {
    if pre != [] {
      assert (pre + [x] + post)[1..] == pre[1..] + [x] + post;
      FirstIndexAfterPrefix(pre[1..], x, post, p);
    }
  }
}
