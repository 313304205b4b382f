/** Small shared vocabulary: optional values, results, and the "first record
    that matches" lookup that both `findOne` on a collection and
    `Array.prototype.findIndex` perform. */
module Common {

  datatype Option<+T> = None | Some(value: T)

  datatype Result<+T, +E> = Success(value: T) | Failure(error: E)

  /** A user's identifier, the string form of the store's id. */
  type UserId = string

  /** Index of the first element of `s` satisfying `p`, or None when no
      element does (where `findIndex` would answer -1 and `findOne` null). */
  function FirstMatch<T>(s: seq<T>, p: T -> bool): (r: Option<nat>)
    ensures r.Some? ==> r.value < |s| && p(s[r.value])
    ensures r.Some? ==> forall j :: 0 <= j < r.value ==> !p(s[j])
    ensures r.None? <==> forall j :: 0 <= j < |s| ==> !p(s[j])
  {
    if s == [] then None
    else if p(s[0]) then Some(0)
    else match FirstMatch(s[1..], p)
      case None => None
      case Some(k) => Some(k + 1)
  }

  /** Appending an element never changes an earlier match; it is found
      only when nothing before it matched. */
  lemma {:induction false} FirstMatchAppend<T>(s: seq<T>, x: T, p: T -> bool)
    ensures FirstMatch(s + [x], p) ==
            match FirstMatch(s, p)
            case Some(i) => Some(i)
            case None => if p(x) then Some(|s|) else None
  {
    var t := s + [x];
    assert forall j :: 0 <= j < |s| ==> t[j] == s[j];
    assert t[|s|] == x;
    match FirstMatch(s, p)
    case Some(i) =>
      var r := FirstMatch(t, p);
      assert r.Some? by { assert p(t[i]); }
    case None =>
  }
}
