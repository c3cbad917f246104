/** First-match search, the shape of Python's `next(x for x in s if p(x))` and of a `for` loop
    that returns on the first hit. */
module Lookup {
  import opened Wrappers

  /** Index of the first element of `s` that satisfies `p`, or None when no element does. */
  function First<T>(s: seq<T>, p: T -> bool): (r: Option<nat>)
    ensures r.Some? ==> r.value < |s| && p(s[r.value])
    ensures r.Some? ==> forall j :: 0 <= j < r.value ==> !p(s[j])
    ensures r.None? ==> forall j :: 0 <= j < |s| ==> !p(s[j])
    decreases |s|
  {
    if |s| == 0 then None
    else if p(s[0]) then Some(0)
    else match First(s[1..], p)
      case None => None
      case Some(k) => Some(k + 1)
  }

  /** The first-match index is the only index that satisfies `p` with no earlier element doing so. */
  lemma FirstIsUnique<T>(s: seq<T>, p: T -> bool, i: nat)
    requires i < |s| && p(s[i])
    requires forall j :: 0 <= j < i ==> !p(s[j])
    ensures First(s, p) == Some(i)
  {
  }

  /** A search that succeeds within `s` never looks past it: what follows does not change the
      result. */
  lemma {:induction false} FirstOfAppend<T>(s: seq<T>, rest: seq<T>, p: T -> bool)
    requires First(s, p).Some?
    ensures First(s + rest, p) == First(s, p)
  {
    var i := First(s, p).value;
    assert (s + rest)[i] == s[i];
    forall j | 0 <= j < i
      ensures !p((s + rest)[j])
    {
      assert (s + rest)[j] == s[j];
    }
    FirstIsUnique(s + rest, p, i);
  }
}
