/** Small shared helpers: an optional value and the first-match search of `Array.prototype.find`. */
module Wrappers {

  datatype Option<+T> = None | Some(value: T)

  /** Index of the first element of `s` satisfying `p`, or None when no element does. */
  function Find<T>(s: seq<T>, p: T -> bool): (r: Option<nat>)
    ensures r.Some? ==> r.value < |s| && p(s[r.value])
    ensures r.Some? ==> forall j :: 0 <= j < r.value ==> !p(s[j])
    ensures r.None? <==> forall j :: 0 <= j < |s| ==> !p(s[j])
    decreases |s|
  {
    if |s| == 0 then None
    else if p(s[0]) then Some(0)
    else
      match Find(s[1..], p)
      case None => None
      case Some(k) => Some(k + 1)
  }
}
