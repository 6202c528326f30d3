/** User-agent detection (`BrowserDetect`): each check is a
    case-insensitive search of the stored user agent for a fixed ASCII
    pattern. A regular expression with the `i` flag and an ASCII pattern
    matches exactly where the user agent, with its ASCII letters lowered,
    contains the lowered pattern, so each pattern is written here in
    lower case. */
module BrowserDetect {
  import opened Wrappers
  import opened Strings

  datatype Detector = Detector(userAgent: string)

  /** `new BrowserDetect(userAgent)`: a missing user agent is stored as "". */
  function New(userAgent: Option<string>): (d: Detector)
    ensures userAgent.None? ==> d.userAgent == ""
    ensures userAgent.Some? ==> d.userAgent == userAgent.value
  {
    Detector(userAgent.GetOr(""))
  }

  /** `/pattern/i.test(userAgent)` for a lower-case pattern. */
  predicate Matches(d: Detector, pattern: string) {
    Contains(LowerAll(d.userAgent), pattern)
  }

  /** `/Android/i` */
  predicate Android(d: Detector) {
    Matches(d, "android")
  }

  /** `/BlackBerry/i` */
  predicate BlackBerry(d: Detector) {
    Matches(d, "blackberry")
  }

  /** `/iPhone|iPad|iPod/i` */
  predicate IOS(d: Detector) {
    Matches(d, "iphone") || Matches(d, "ipad") || Matches(d, "ipod")
  }

  /** `/Opera Mini/i` */
  predicate Opera(d: Detector) {
    Matches(d, "opera mini")
  }

  /** `/IEMobile/i` */
  predicate Windows(d: Detector) {
    Matches(d, "iemobile")
  }

  predicate IsLowerCase(p: string) {
    forall k :: 0 <= k < |p| ==> Lower(p[k]) == p[k]
  }

  /** A case-insensitive occurrence: a position of `s` where every
      character equals the pattern's character up to ASCII case. */
  predicate MatchesAt(s: string, pattern: string, i: int) {
    0 <= i && i + |pattern| <= |s| && forall k :: 0 <= k < |pattern| ==> Lower(s[i + k]) == Lower(pattern[k])
  }

  /** For a lower-case pattern, a check holds exactly when the pattern
      occurs in the user agent up to ASCII case. */
  lemma MatchesIff(d: Detector, p: string)
    requires IsLowerCase(p)
    ensures Matches(d, p) <==> exists i :: MatchesAt(d.userAgent, p, i)
  {
    var s := d.userAgent;
    var ls := LowerAll(s);
    ContainsIffOccurs(ls, p);
    forall i ensures OccursAt(ls, p, i) <==> MatchesAt(s, p, i) {
      if 0 <= i && i + |p| <= |s| {
        if OccursAt(ls, p, i) {
          forall k | 0 <= k < |p| ensures Lower(s[i + k]) == Lower(p[k]) {
            assert ls[i..i + |p|][k] == ls[i + k];
          }
        }
        if MatchesAt(s, p, i) {
          assert ls[i..i + |p|] == p;
        }
      }
    }
  }

  lemma LowerIdempotent(c: char)
    ensures Lower(Lower(c)) == Lower(c)
  {
  }

  /** Changing the case of letters in the user agent changes no check. */
  lemma CaseDoesNotMatter(ua: string, p: string)
    ensures Matches(Detector(LowerAll(ua)), p) == Matches(Detector(ua), p)
  {
    var l := LowerAll(ua);
    forall i | 0 <= i < |ua| ensures LowerAll(l)[i] == LowerAll(ua)[i] {
      LowerIdempotent(ua[i]);
    }
    assert LowerAll(l) == LowerAll(ua);
  }

  /** With no user agent every check is false. */
  lemma MissingUserAgent()
    ensures var d := New(None);
            !Android(d) && !BlackBerry(d) && !IOS(d) && !Opera(d) && !Windows(d)
  {
    var d := New(None);
    assert LowerAll(d.userAgent) == "";
  }
}
