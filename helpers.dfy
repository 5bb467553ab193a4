/** The pure helpers of the card generator: the file-name sanitiser, the
    ordinal suffix of a placement (with the `parseInt` it relies on) and the
    extraction of a user name from a social-media link. Line numbers in this
    module refer to CreateCards.jsx. */
module CardHelpers {
  import opened Text

  // ---------------------------------------------------------------------------
  // sanitizeFileName

  /** The class `[\\\/\:\*\?\"\<\>\|\'\%]`. */
  const Unsafe: set<char> := {'\\', '/', ':', '*', '?', '"', '<', '>', '|', '\'', '%'}

  /** `name.replace(/[\\\/\:\*\?\"\<\>\|\'\%]/g, "_")`. */
  function SanitizeFileName(name: string): (r: string)
    ensures |r| == |name|
    ensures forall i :: 0 <= i < |name| ==> r[i] == if name[i] in Unsafe then '_' else name[i]
  {
    ReplaceChars(name, Unsafe)
  }

  /** A sanitised name holds none of the characters, and sanitising it again
      changes nothing. */
  lemma SanitizedIsClean(name: string)
    ensures forall i :: 0 <= i < |SanitizeFileName(name)| ==> SanitizeFileName(name)[i] !in Unsafe
    ensures SanitizeFileName(SanitizeFileName(name)) == SanitizeFileName(name)
  {
    ReplaceCharsClears(name, Unsafe);
    ReplaceCharsIdempotent(name, Unsafe);
  }

  // ---------------------------------------------------------------------------
  // parseInt(place, 10)

  predicate IsDigit(c: char) {
    '0' <= c <= '9'
  }

  /** The length of the run of decimal digits at the front of `s`. */
  function DigitRun(s: string): (n: nat)
    ensures n <= |s|
    ensures forall i :: 0 <= i < n ==> IsDigit(s[i])
    ensures n == |s| || !IsDigit(s[n])
  {
    if s != [] && IsDigit(s[0]) then 1 + DigitRun(s[1..]) else 0
  }

  function DigitValue(c: char): nat
    requires IsDigit(c)
  {
    c as int - '0' as int
  }

  /** The value of a string of decimal digits, read most significant first. */
  function DigitsValue(d: string): nat
    requires forall i :: 0 <= i < |d| ==> IsDigit(d[i])
  {
    if d == [] then 0 else 10 * DigitsValue(d[..|d| - 1]) + DigitValue(d[|d| - 1])
  }

  /** The value of the run of digits `body` starts with, if any. */
  function Unsigned(body: string): Option<int> {
    var n := DigitRun(body);
    if n == 0 then None else Some(DigitsValue(body[..n]))
  }

  /** `parseInt(s, 10)` on a string: leading whitespace is skipped, one `+` or
      `-` may follow, then the longest run of digits is read; with no digit
      the result is `NaN`, here `None`. */
  function ParseInt(s: string): Option<int> {
    var t := TrimStart(s);
    if t != [] && t[0] == '-' then
      match Unsigned(t[1..])
      case None => None
      case Some(v) => Some(-v)
    else if t != [] && t[0] == '+' then Unsigned(t[1..])
    else Unsigned(t)
  }

  lemma {:induction false} DigitsOfNumber(n: nat)
    ensures DigitsValue(NatToString(n)) == n
  {
    var s := NatToString(n);
    if n >= 10 {
      DigitsOfNumber(n / 10);
      assert s[..|s| - 1] == NatToString(n / 10);
    }
  }

  /** Reading back the decimal digits of a number gives the number. */
  lemma ParseWrittenNumber(n: nat)
    ensures ParseInt(NatToString(n)) == Some(n)
  {
    DigitsOfNumber(n);
    ParseDigits(NatToString(n));
  }

  /** A non-empty string of digits is read as its value. */
  lemma ParseDigits(s: string)
    requires s != [] && forall i :: 0 <= i < |s| ==> IsDigit(s[i])
    ensures ParseInt(s) == Some(DigitsValue(s))
  {
    assert TrimStart(s) == s by { assert LeadingSpaces(s) == 0; }
    assert Unsigned(s) == Some(DigitsValue(s)) by {
      DigitRunAll(s);
      assert s[..|s|] == s;
    }
  }

  lemma {:induction false} DigitRunAll(s: string)
    requires forall i :: 0 <= i < |s| ==> IsDigit(s[i])
    ensures DigitRun(s) == |s|
  {
    if s != [] {
      DigitRunAll(s[1..]);
    }
  }

  // ---------------------------------------------------------------------------
  // getPlacementSuffix

  /** JavaScript's `a % b` for `b > 0`: the remainder takes the sign of `a`. */
  function JsRem(a: int, b: int): (r: int)
    requires b > 0
    ensures a >= 0 ==> 0 <= r < b
    ensures a < 0 ==> -b < r <= 0
  {
    if a >= 0 then a % b else -((-a) % b)
  }

  /** JavaScript's integer quotient rounds toward zero. */
  function JsQuot(a: int, b: int): int
    requires b > 0
  {
    if a >= 0 then a / b else -((-a) / b)
  }

  /** The remainder is what the truncating division leaves over. */
  lemma JsDivision(a: int, b: int)
    requires b > 0
    ensures a == b * JsQuot(a, b) + JsRem(a, b)
  {
    if a < 0 {
      var m := -a;
      var q, r := m / b, m % b;
      assert m == b * q + r;
      assert b * (-q) == -(b * q);
    }
  }

  /** Lines 408-424 for an already parsed number. */
  function SuffixOfNumber(num: int): string {
    var lastDigit := JsRem(num, 10);
    var lastTwoDigits := JsRem(num, 100);
    if 11 <= lastTwoDigits <= 13 then "th"
    else if lastDigit == 1 then "st"
    else if lastDigit == 2 then "nd"
    else if lastDigit == 3 then "rd"
    else "th"
  }

  /** `getPlacementSuffix(place)`; `None` is a column the row does not have
      (`parseInt(undefined)` is `NaN`). */
  function PlacementSuffix(place: Option<string>): (r: string)
    ensures r in {"", "st", "nd", "rd", "th"}
    ensures r == "" <==> place.None? || ParseInt(place.value).None?
    ensures place.Some? && ParseInt(place.value).Some? ==> r == SuffixOfNumber(ParseInt(place.value).value)
  {
    match place
    case None => ""
    case Some(s) =>
      match ParseInt(s)
      case None => ""
      case Some(num) => SuffixOfNumber(num)
  }

  /** The English ordinal suffix of a non-negative number, written from its
      tens and units digits. */
  function EnglishOrdinal(n: nat): string {
    var tens, units := (n / 10) % 10, n % 10;
    if tens == 1 then "th"
    else if units == 1 then "st"
    else if units == 2 then "nd"
    else if units == 3 then "rd"
    else "th"
  }

  /** A written non-negative placement gets its English ordinal suffix. */
  lemma SuffixOfWrittenPlace(n: nat)
    ensures PlacementSuffix(Some(NatToString(n))) == EnglishOrdinal(n)
  {
    ParseWrittenNumber(n);
    LastTwoDigits(n);
  }

  lemma LastTwoDigits(n: nat)
    ensures n % 100 == 10 * ((n / 10) % 10) + n % 10
  {
    var q, r := n / 10, n % 10;
    var h, t := q / 10, q % 10;
    assert n == 10 * q + r;
    assert q == 10 * h + t;
    assert n == 100 * h + (10 * t + r);
    assert 0 <= 10 * t + r < 100;
  }

  /** Negative placements always get "th", because the remainders are never
      positive. */
  lemma NegativePlaceGetsTh(num: int)
    requires num < 0
    ensures SuffixOfNumber(num) == "th"
  {
  }

  lemma SuffixExamples()
    ensures PlacementSuffix(Some("-1")) == "th"
    ensures PlacementSuffix(Some("T1")) == ""
    ensures PlacementSuffix(None) == ""
  {
    assert TrimStart("-1") == "-1";
    assert "-1"[1..] == "1";
    assert DigitRun("1") == 1;
    assert TrimStart("T1") == "T1";
  }

  /** Leading blanks, a plus sign and trailing letters do not change the
      number that is read. */
  lemma ParseExamples()
    ensures ParseInt(" +13TH") == Some(13)
  {
    assert TrimStart(" +13TH") == "+13TH";
    assert "+13TH"[1..] == "13TH";
    assert DigitRun("13TH") == 2;
    assert "13TH"[..2] == "13";
    assert DigitsValue("13") == 13 by { assert "13"[..1] == "1"; }
  }

  // ---------------------------------------------------------------------------
  // extractUsername

  /** `[\w\d_]`, that is `[A-Za-z0-9_]`. */
  predicate IsWordChar(c: char) {
    'a' <= c <= 'z' || 'A' <= c <= 'Z' || IsDigit(c) || c == '_'
  }

  function LowerChar(c: char): char {
    if 'A' <= c <= 'Z' then (c as int + 32) as char else c
  }

  /** The three alternatives of `(?:twitch\.tv\/|x\.com\/|twitter\.com\/)`. */
  const Sites: seq<string> := ["twitch.tv/", "x.com/", "twitter.com/"]

  /** `pat` (written in lower case) occurs at `p` in `s`, ignoring case. */
  predicate OccursAt(s: string, p: int, pat: string) {
    0 <= p && p + |pat| <= |s| && forall k :: 0 <= k < |pat| ==> LowerChar(s[p + k]) == pat[k]
  }

  /** The pattern matches at `p` through site `k`: the site's prefix occurs
      there and at least one word character follows it. */
  predicate SiteMatchAt(s: string, p: int, k: int) {
    0 <= k < |Sites| && OccursAt(s, p, Sites[k])
    && p + |Sites[k]| < |s| && IsWordChar(s[p + |Sites[k]|])
  }

  /** The first site through which the pattern matches at `p`. */
  function MatchSite(s: string, p: int): (r: Option<nat>)
    ensures r.Some? ==> SiteMatchAt(s, p, r.value)
    ensures r.None? ==> forall k :: 0 <= k < |Sites| ==> !SiteMatchAt(s, p, k)
  {
    if SiteMatchAt(s, p, 0) then Some(0)
    else if SiteMatchAt(s, p, 1) then Some(1)
    else if SiteMatchAt(s, p, 2) then Some(2)
    else None
  }

  predicate MatchAt(s: string, p: int) {
    MatchSite(s, p).Some?
  }

  /** The maximal run of word characters that starts at `i`. */
  function WordRun(s: string, i: nat): (n: nat)
    requires i <= |s|
    ensures i + n <= |s|
    ensures forall j :: i <= j < i + n ==> IsWordChar(s[j])
    ensures i + n == |s| || !IsWordChar(s[i + n])
    decreases |s| - i
  {
    if i < |s| && IsWordChar(s[i]) then 1 + WordRun(s, i + 1) else 0
  }

  /** The group `([\w\d_]+)` of a match at `p`. */
  function CapturedAt(s: string, p: int): (u: string)
    requires MatchAt(s, p)
  {
    var start := p + |Sites[MatchSite(s, p).value]|;
    s[start..start + WordRun(s, start)]
  }

  /** The sites cannot both match at one position, so the captured group does
      not depend on which one is picked. */
  lemma SiteMatchUnique(s: string, p: int, k: int, k': int)
    requires SiteMatchAt(s, p, k) && SiteMatchAt(s, p, k')
    ensures k == k'
  {
    var c0, c4 := LowerChar(s[p]), LowerChar(s[p + 4]);
    assert c0 == Sites[k][0] && c0 == Sites[k'][0];
    assert k != 1 ==> c4 == Sites[k][4];
    assert k' != 1 ==> c4 == Sites[k'][4];
  }

  /** Whether the pattern matches, position by position. */
  function Matches(s: string): seq<bool> {
    seq(|s|, q => MatchAt(s, q))
  }

  /** The first position at or after `p` that holds, searching left to right. */
  function FirstFrom(m: seq<bool>, p: nat): (r: Option<nat>)
    requires p <= |m|
    ensures r.Some? ==> p <= r.value < |m| && m[r.value]
    ensures forall q :: p <= q < (if r.Some? then r.value else |m|) ==> !m[q]
    decreases |m| - p
  {
    if p == |m| then None
    else if m[p] then Some(p)
    else FirstFrom(m, p + 1)
  }

  /** The search from `p0` stops at the first position that holds. */
  lemma {:induction false} FirstFromStops(m: seq<bool>, p0: nat, p: int)
    requires p0 <= p < |m| && m[p]
    requires forall q :: p0 <= q < p ==> !m[q]
    ensures FirstFrom(m, p0) == Some(p)
    decreases p - p0
  {
    if p0 < p {
      FirstFromStops(m, p0 + 1, p);
    }
  }

  /** `extractUsername(url)`: blank or `undefined` gives "", a match gives its
      group, and anything else is returned as it is. */
  function ExtractUsername(url: Option<string>): string {
    match url
    case None => ""
    case Some(s) =>
      if IsBlank(s) then ""
      else
        match FirstFrom(Matches(s), 0)
        case Some(p) => CapturedAt(s, p)
        case None => s
  }

  lemma ExtractBlank(url: Option<string>)
    requires !HasText(url)
    ensures ExtractUsername(url) == ""
  {
  }

  /** With a match, the result is the group of the leftmost match. */
  lemma ExtractLeftmost(s: string, p: int)
    requires !IsBlank(s) && 0 <= p < |s| && MatchAt(s, p)
    requires forall q :: 0 <= q < p ==> !MatchAt(s, q)
    ensures ExtractUsername(Some(s)) == CapturedAt(s, p)
  {
    FirstFromStops(Matches(s), 0, p);
  }

  /** The group of a match through site `k` is the non-empty maximal run of
      word characters right after the site prefix. */
  lemma CapturedRun(s: string, p: int, k: int)
    requires SiteMatchAt(s, p, k)
    ensures MatchAt(s, p)
    ensures var start := p + |Sites[k]|;
            CapturedAt(s, p) == s[start..start + WordRun(s, start)]
    ensures CapturedAt(s, p) != ""
    ensures forall i :: 0 <= i < |CapturedAt(s, p)| ==> IsWordChar(CapturedAt(s, p)[i])
  {
    assert MatchSite(s, p).Some?;
    SiteMatchUnique(s, p, k, MatchSite(s, p).value);
  }

  /** Without a match the input comes back unchanged. */
  lemma ExtractWithoutMatch(s: string)
    requires !IsBlank(s) && forall q :: 0 <= q < |s| ==> !MatchAt(s, q)
    ensures ExtractUsername(Some(s)) == s
  {
  }

  lemma ExtractSiteExample()
    ensures ExtractUsername(Some("X.COM/AB_1?")) == "AB_1"
  {
    var s := "X.COM/AB_1?";
    assert OccursAt(s, 0, Sites[1]);
    assert SiteMatchAt(s, 0, 1);
    assert WordRun(s, 10) == 0;
    assert WordRun(s, 6) == 4;
    CapturedRun(s, 0, 1);
    ExtractLeftmost(s, 0);
  }

  lemma ExtractPlainExample()
    ensures ExtractUsername(Some("@AB")) == "@AB"
    ensures ExtractUsername(Some(" \t")) == ""
  {
    var t := "@AB";
    assert LeadingSpaces(t) == 0;
    forall q | 0 <= q < |t|
      ensures !MatchAt(t, q)
    {
    }
    ExtractWithoutMatch(t);
    assert LeadingSpaces(" \t") == 2;
  }
}
