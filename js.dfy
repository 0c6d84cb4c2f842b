/** The few JavaScript built-ins the editor components lean on, as pure functions. */
module Js {

  /** A value that may be `null`. */
  datatype Option<+T> = None | Some(value: T)

  /** `s.startsWith(searchString)` with no position argument: the first
      `searchString.length` characters of `s` are exactly `searchString`. */
  predicate StartsWith(s: string, searchString: string)
  {
    |searchString| <= |s| && s[..|searchString|] == searchString
  }

  /** A string that starts with "* " has a space as its second character,
      so it starts with neither "** " nor "*** ". */
  lemma StarSpaceExcludesLongerMarkers(s: string)
    ensures StartsWith(s, "* ") ==> !StartsWith(s, "** ") && !StartsWith(s, "*** ")
  {
    if StartsWith(s, "* ") {
      assert s[1] == ' ' by { assert s[..2][1] == s[1]; }
      assert |s| >= 3 ==> s[..3][1] != '*';
      assert |s| >= 4 ==> s[..4][1] != '*';
    }
  }
}
