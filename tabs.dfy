/**
  What the background scripts decide about browser tabs: whether a tab's URL passes
  the regular expression `.*twitter.com\/.*`, and which toolbar icon goes with it.
*/
module Tabs {
  import opened JsStrings

  /** The pattern `.*twitter.com\/.*` matches `url` with its `twitter` at index `p`: the unescaped
      `.` between `twitter` and `com/` is any code point but a line terminator, and the
      surrounding `.*` may match nothing. */
  predicate MatchesAt(url: string, p: nat) {
    && p + 12 <= |url|
    && url[p..p + 7] == "twitter"
    && !IsLineTerminator(url[p + 7])
    && url[p + 8..p + 12] == "com/"
  }

  /** The first match at or after `from`, scanning left to right as the regular
      expression engine does. */
  function FindMatch(url: string, from: nat): (r: bool)
    decreases |url| - from
    ensures r <==> exists p :: from <= p && MatchesAt(url, p)
  {
    if from + 12 > |url| then false
    else if MatchesAt(url, from) then true
    else FindMatch(url, from + 1)
  }

  /** `test(url)` of that pattern. */
  function IsTwitterUrl(url: string): (r: bool)
    ensures r <==> exists p :: MatchesAt(url, p)
  {
    FindMatch(url, 0)
  }

  /** The two toolbar icons. */
  datatype Icon = MainLogo | DisabledLogo

  function IconPath(icon: Icon): (path: string)
    ensures icon == MainLogo ==> path == "images/main_logo_128.png"
    ensures icon == DisabledLogo ==> path == "images/main_logo_disabled.png"
  {
    match icon
    case MainLogo => "images/main_logo_128.png"
    case DisabledLogo => "images/main_logo_disabled.png"
  }

  /** A URL with `twitter.com/` in it passes the test, and so does one where another
      code point stands for the dot. */
  lemma TwitterUrlExamples(prefix: string, c: char, suffix: string)
    requires !IsLineTerminator(c)
    ensures IsTwitterUrl(prefix + "twitter" + [c] + "com/" + suffix)
  {
    var url := prefix + "twitter" + [c] + "com/" + suffix;
    var p := |prefix|;
    assert url[p..p + 7] == "twitter";
    assert url[p + 7] == c;
    assert url[p + 8..p + 12] == "com/";
    assert MatchesAt(url, p);
  }
}
