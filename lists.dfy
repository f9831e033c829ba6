/** List membership, as used for the colour and detail-type tables. */
module Lists {

  /** `contains`: scans `s` front to back and stops at the first element equal to `el`. */
  function Contains(s: seq<string>, el: string): (r: bool)
    ensures r <==> exists i :: 0 <= i < |s| && s[i] == el
    ensures s == [] ==> !r
  {
    if s == [] then false
    else if s[0] == el then true
    else Contains(s[1..], el)
  }
}
