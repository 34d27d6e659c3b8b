/**
 * The two read-only reference tables of the `iso-3166` package, kept as
 * parameters of the model (their contents are not part of it), and the
 * first-match search `Array.prototype.find` that the lookups run over them.
 */
module Iso3166 {
  import opened Wrappers

  /** An entry of `iso31662`: an ISO 3166-2 subdivision code and the code of its parent subdivision or country. */
  datatype Subdivision = Subdivision(code: string, parent: string)

  /** An entry of `iso31661`: an ISO 3166-1 alpha-2 code and the country's name. */
  datatype Country = Country(alpha2: string, name: string)

  datatype Tables = Tables(subdivisions: seq<Subdivision>, countries: seq<Country>)

  /** `i` is the index of the first element of `s` that satisfies `matches`. */
  ghost predicate IsFirstMatch<T>(s: seq<T>, matches: T -> bool, i: int) {
    0 <= i < |s| && matches(s[i]) && forall j :: 0 <= j < i ==> !matches(s[j])
  }

  /** `s.find(matches)`: the first element satisfying `matches`, or none. */
  function Find<T>(s: seq<T>, matches: T -> bool): (r: Option<T>)
    ensures r.None? <==> forall i :: 0 <= i < |s| ==> !matches(s[i])
    ensures r.Some? ==> exists i :: IsFirstMatch(s, matches, i) && s[i] == r.value
  {
    if s == [] then None
    else if matches(s[0]) then
      assert IsFirstMatch(s, matches, 0);
      Some(s[0])
    else
      var r := Find(s[1..], matches);
      assert r.Some? ==> exists i :: IsFirstMatch(s, matches, i) && s[i] == r.value by {
        if r.Some? {
          var i :| IsFirstMatch(s[1..], matches, i) && s[1..][i] == r.value;
          assert IsFirstMatch(s, matches, i + 1);
        }
      }
      r
  }
}
