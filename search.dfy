/** `Array.prototype.find` as used by the calculations: the first element satisfying a test. */
module Search {
  import opened ArcheryTypes

  /** The index of the first element of `s` satisfying `p`, or None when none does. */
  function FindFirst<T>(s: seq<T>, p: T -> bool): (r: Option<nat>)
    ensures r.Some? ==> r.value < |s| && p(s[r.value])
    ensures r.Some? ==> forall j :: 0 <= j < r.value ==> !p(s[j])
    ensures r.None? <==> forall j :: 0 <= j < |s| ==> !p(s[j])
  {
    if s == [] then None
    else if p(s[0]) then Some(0)
    else
      match FindFirst(s[1..], p)
      case None => None
      case Some(k) => Some(k + 1)
  }
}
