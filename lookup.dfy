/** The two selection rules the services use to pick one entity out of a
    listed collection. Each starts from the Go zero value and overwrites it
    while ranging over the list: without a `break` the last match wins, with a
    `break` the first one does. */
module Lookup {

  import opened Wrappers

  /** The position of the last element satisfying `p`, if any. */
  function LastIndex<T>(s: seq<T>, p: T -> bool): (r: Option<nat>)
    ensures r.Some? ==> r.value < |s| && p(s[r.value])
    ensures r.Some? ==> forall j :: r.value < j < |s| ==> !p(s[j])
    ensures r.None? <==> forall j :: 0 <= j < |s| ==> !p(s[j])
    decreases |s|
  {
    if |s| == 0 then None
    else if p(s[|s| - 1]) then Some(|s| - 1)
    else LastIndex(s[..|s| - 1], p)
  }

  /** The position of the first element satisfying `p`, if any. */
  function FirstIndex<T>(s: seq<T>, p: T -> bool): (r: Option<nat>)
    ensures r.Some? ==> r.value < |s| && p(s[r.value])
    ensures r.Some? ==> forall j :: 0 <= j < r.value ==> !p(s[j])
    ensures r.None? <==> forall j :: 0 <= j < |s| ==> !p(s[j])
    decreases |s|
  {
    if |s| == 0 then None
    else if p(s[0]) then Some(0)
    else match FirstIndex(s[1..], p)
      case None => None
      case Some(k) => Some(k + 1)
  }

  /** The last match, or `zero` when nothing matches. */
  function LastOr<T>(s: seq<T>, p: T -> bool, zero: T): T
  {
    match LastIndex(s, p)
    case Some(i) => s[i]
    case None => zero
  }

  /** The first match, or `zero` when nothing matches. */
  function FirstOr<T>(s: seq<T>, p: T -> bool, zero: T): T
  {
    match FirstIndex(s, p)
    case Some(i) => s[i]
    case None => zero
  }

  /** `for _, x := range s { if p(x) { found = x } }` starting from the zero value. */
  method ScanLast<T>(s: seq<T>, p: T -> bool, zero: T) returns (found: T)
    ensures found == LastOr(s, p, zero)
  {
    found := zero;
    for i := 0 to |s|
      invariant found == LastOr(s[..i], p, zero)
    {
      assert s[..i + 1][..i] == s[..i];
      if p(s[i]) {
        found := s[i];
      }
    }
    assert s[..|s|] == s;
  }

  /** `for _, x := range s { if p(x) { found = x; break } }` starting from the zero value. */
  method ScanFirst<T>(s: seq<T>, p: T -> bool, zero: T) returns (found: T)
    ensures found == FirstOr(s, p, zero)
  {
    found := zero;
    var i := 0;
    while i < |s|
      invariant 0 <= i <= |s|
      invariant forall j :: 0 <= j < i ==> !p(s[j])
      invariant found == zero
    {
      if p(s[i]) {
        found := s[i];
        break;
      }
      i := i + 1;
    }
  }

  /** Both rules pick the same position exactly when no two elements match:
      duplicates are where "last match wins" and "first match wins" differ. */
  lemma LastAndFirstAgree<T>(s: seq<T>, p: T -> bool)
    ensures LastIndex(s, p) == FirstIndex(s, p) <==>
      forall i, j :: 0 <= i < j < |s| && p(s[i]) ==> !p(s[j])
  {
  }

  /** Later elements override earlier ones: the last match of `s + t` comes
      from `t` whenever `t` holds a match. */
  lemma {:induction false} LastOrAppend<T>(s: seq<T>, t: seq<T>, p: T -> bool, zero: T)
    ensures LastIndex(t, p).Some? ==> LastOr(s + t, p, zero) == LastOr(t, p, zero)
    ensures LastIndex(t, p).None? ==> LastOr(s + t, p, zero) == LastOr(s, p, zero)
  {
    var st := s + t;
    match LastIndex(t, p)
    case Some(k) =>
      assert st[|s| + k] == t[k];
      assert forall j :: |s| + k < j < |st| ==> st[j] == t[j - |s|];
    case None =>
      assert forall j :: |s| <= j < |st| ==> st[j] == t[j - |s|];
      assert forall j :: 0 <= j < |s| ==> st[j] == s[j];
  }
}
