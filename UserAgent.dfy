/**
 * User-agent derivation of the WebView wrapper. The engine's default user
 * agent is matched, as a whole string, against the Java pattern
 * `([^)]+ \()([^)]+)(\) .*)`; from its three groups the wrapper builds a
 * mobile user agent (the "; wv" WebView marker removed from the device group)
 * and a desktop one (the device group replaced by a fixed X11 token and
 * " Mobile " dropped from the suffix).
 *
 * The matcher is written out by hand (first ')' then the last " (" before
 * it) and proved equal to the regex's semantics: `Splits` is the language of
 * the pattern, and among the ways to split a string into the three groups the
 * Java matcher picks the one with the longest first group, because the first
 * `[^)]+` is greedy.
 */
module UserAgent {
  import opened Kotlin

  const DESKTOP_DEVICE: string := "X11; Linux x86_64"
  const DESKTOP_USER_AGENT_FALLBACK: string :=
    "Mozilla/5.0 (X11; Linux x86_64) AppleWebKit/537.36 (KHTML, like Gecko) Chrome/37.0.2049.0 Safari/537.36"
  /** Removed from the device group to get the mobile user agent. */
  const WEBVIEW_MARKER: string := "; wv"
  /** Replaced by a single space in the suffix of the desktop user agent. */
  const MOBILE_MARKER: string := " Mobile "

  /** The characters Java's `.` does not match when DOTALL is off. */
  predicate IsLineTerminator(c: char) {
    c == '\n' || c == '\r' || c == '\U{85}' || c == '\U{2028}' || c == '\U{2029}'
  }

  predicate NoClose(s: string) {
    forall i :: 0 <= i < |s| ==> s[i] != ')'
  }

  predicate NoOpen(s: string) {
    forall i :: 0 <= i < |s| ==> s[i] != '('
  }

  /** `s` matches `.*`. */
  predicate AnyLine(s: string) {
    forall i :: 0 <= i < |s| ==> !IsLineTerminator(s[i])
  }

  /** Group 1, `[^)]+ \(`. */
  predicate IsPrefixGroup(g: string) {
    |g| >= 3 && g[|g| - 2] == ' ' && g[|g| - 1] == '(' && NoClose(g)
  }

  /** Group 2, `[^)]+`. */
  predicate IsDeviceGroup(g: string) {
    |g| >= 1 && NoClose(g)
  }

  /** Group 3, `\) .*`. */
  predicate IsSuffixGroup(g: string) {
    |g| >= 2 && g[0] == ')' && g[1] == ' ' && AnyLine(g[2..])
  }

  /** `s` is the concatenation of three strings matching the three groups. */
  predicate Splits(s: string, g1: string, g2: string, g3: string) {
    s == g1 + g2 + g3 && IsPrefixGroup(g1) && IsDeviceGroup(g2) && IsSuffixGroup(g3)
  }

  datatype Groups = Groups(prefix: string, device: string, suffix: string)

  /** The largest `j` in 1..`hi` where " (" starts, or 0 when there is none. */
  function LastOpen(s: string, hi: nat): (j: nat)
    requires hi + 1 < |s|
    ensures j <= hi
    ensures j > 0 ==> s[j] == ' ' && s[j + 1] == '('
    ensures forall k :: j < k <= hi ==> !(s[k] == ' ' && s[k + 1] == '(')
    decreases hi
  {
    if hi == 0 then 0
    else if s[hi] == ' ' && s[hi + 1] == '(' then hi
    else LastOpen(s, hi - 1)
  }

  /**
   * `Pattern.compile("([^)]+ \\()([^)]+)(\\) .*)").matcher(s)`: `matches()`
   * and, on success, `group(1)`, `group(2)` and `group(3)`. No character of
   * groups 1 and 2 is ')', so group 3 starts at the first ')'; the greedy
   * first group then ends at the last " (" that still leaves group 2
   * non-empty.
   */
  function Match(s: string): (r: Option<Groups>)
    ensures r.Some? ==> Splits(s, r.value.prefix, r.value.device, r.value.suffix)
  {
    var p := FindChar(s, ')', 0);
    if p < 4 || p + 1 >= |s| || s[p + 1] != ' ' || !AnyLine(s[p + 2..]) then None
    else
      var j := LastOpen(s, p - 3);
      if j == 0 then None
      else
        assert s == s[..j + 2] + s[j + 2..p] + s[p..];
        Some(Groups(s[..j + 2], s[j + 2..p], s[p..]))
  }

  /** In any split, the third group starts at the first ')'. */
  lemma FirstCloseOfSplit(s: string, g1: string, g2: string, g3: string)
    requires Splits(s, g1, g2, g3)
    ensures FindChar(s, ')', 0) == |g1| + |g2|
  {
    var p := |g1| + |g2|;
    assert s[p] == g3[0] == ')';
    forall j | 0 <= j < p ensures s[j] != ')' {
      if j < |g1| { assert s[j] == g1[j]; } else { assert s[j] == g2[j - |g1|]; }
    }
  }

  /** Every string of the pattern's language is matched, with a first group at least as long as any split's. */
  lemma MatchComplete(s: string, g1: string, g2: string, g3: string)
    requires Splits(s, g1, g2, g3)
    ensures Match(s).Some?
    ensures |g1| <= |Match(s).value.prefix|
  {
    FirstCloseOfSplit(s, g1, g2, g3);
    var p := |g1| + |g2|;
    assert s[p + 1] == g3[1] == ' ';
    assert s[p + 2..] == g3[2..];
    var L := |g1| - 2;
    assert s[L] == g1[L] == ' ' && s[L + 1] == g1[L + 1] == '(';
    assert L <= p - 3;
  }

  /** When the device group holds no '(', the split is the only one and the matcher returns it. */
  lemma MatchExact(s: string, g1: string, g2: string, g3: string)
    requires Splits(s, g1, g2, g3)
    requires NoOpen(g2)
    ensures Match(s) == Some(Groups(g1, g2, g3))
  {
    MatchComplete(s, g1, g2, g3);
    FirstCloseOfSplit(s, g1, g2, g3);
    var p := |g1| + |g2|;
    var P := Match(s).value.prefix;
    var n := |P|;
    assert P == s[..n];
    assert n <= |g1|;
    assert s[..|g1|] == g1;
    assert s[|g1|..p] == g2;
    assert s[p..] == g3;
  }

  /** A user agent's mobile and desktop variants, and whether the pattern matched. */
  datatype UserAgents = UserAgents(mobile: string, desktop: string, matched: bool)

  /**
   * The two user agents the wrapper derives from the engine's default one:
   * group 1 + group 2 with "; wv" removed + group 3 for mobile, and group 1
   * + "X11; Linux x86_64" + group 3 with " Mobile " replaced by " " for
   * desktop; on no match, the default itself and the fixed fallback.
   */
  function Derive(ua: string): (r: UserAgents)
    ensures r.matched <==> Match(ua).Some?
    ensures !r.matched ==> r.mobile == ua && r.desktop == DESKTOP_USER_AGENT_FALLBACK
  {
    match Match(ua)
    case Some(g) =>
      UserAgents(g.prefix + Replace(g.device, WEBVIEW_MARKER, "") + g.suffix,
                 g.prefix + DESKTOP_DEVICE + Replace(g.suffix, MOBILE_MARKER, " "),
                 true)
    case None => UserAgents(ua, DESKTOP_USER_AGENT_FALLBACK, false)
  }

  /** Replacing " Mobile " by " " keeps a suffix in the shape of group 3. */
  lemma DesktopSuffixShape(g3: string)
    requires IsSuffixGroup(g3)
    ensures IsSuffixGroup(Replace(g3, MOBILE_MARKER, " "))
  {
    var t := MOBILE_MARKER;
    var r := Replace(g3, t, " ");
    if |g3| >= |t| {
      assert g3[..|t|] != t by { assert g3[0] != t[0]; }
      var u := g3[1..];
      var r' := Replace(u, t, " ");
      assert r == [')'] + r';
      assert r'[0] == ' ';
      forall i | 0 <= i < |u| ensures !IsLineTerminator(u[i]) {
        if i > 0 { assert u[i] == g3[2..][i - 1]; }
      }
      forall i | 0 <= i < |r'| ensures !IsLineTerminator(r'[i]) {
        assert r'[i] in r';
      }
      assert r[2..] == r'[1..];
    }
  }

  /** Removing "; wv" never introduces a ')', so it keeps a non-empty device group a device group. */
  lemma MobileDeviceShape(g2: string)
    requires IsDeviceGroup(g2)
    ensures NoClose(Replace(g2, WEBVIEW_MARKER, ""))
  {
  }

  /**
   * The derived desktop user agent is itself a user agent of the expected
   * shape, whose device group is exactly "X11; Linux x86_64": deriving from
   * it again reads the same prefix and device back.
   */
  lemma DesktopReparses(ua: string)
    requires Match(ua).Some?
    ensures var g := Match(ua).value;
            Match(Derive(ua).desktop) == Some(Groups(g.prefix, DESKTOP_DEVICE, Replace(g.suffix, MOBILE_MARKER, " ")))
  {
    var g := Match(ua).value;
    var sfx := Replace(g.suffix, MOBILE_MARKER, " ");
    DesktopSuffixShape(g.suffix);
    assert IsDeviceGroup(DESKTOP_DEVICE) && NoOpen(DESKTOP_DEVICE);
    assert Derive(ua).desktop == g.prefix + DESKTOP_DEVICE + sfx;
    MatchExact(Derive(ua).desktop, g.prefix, DESKTOP_DEVICE, sfx);
  }

  /**
   * Unless the device group consisted of nothing but "; wv" markers, the
   * mobile user agent still matches the pattern.
   */
  lemma MobileReparses(ua: string)
    requires Match(ua).Some?
    requires |Replace(Match(ua).value.device, WEBVIEW_MARKER, "")| > 0
    ensures Match(Derive(ua).mobile).Some?
  {
    var g := Match(ua).value;
    MobileDeviceShape(g.device);
    MatchComplete(Derive(ua).mobile, g.prefix, Replace(g.device, WEBVIEW_MARKER, ""), g.suffix);
  }

  /** A device group without the "; wv" marker is kept as it is in the mobile user agent. */
  lemma MobileWithoutMarker(ua: string)
    requires Match(ua).Some?
    requires forall i: nat :: !OccursAt(Match(ua).value.device, WEBVIEW_MARKER, i)
    ensures Derive(ua).mobile == ua
  {
    var g := Match(ua).value;
    ReplaceWithoutOccurrence(g.device, WEBVIEW_MARKER, "");
  }
}
