/** String helpers shared by the two host scripts: the whitespace trim written
    as `replace(/^\s+|\s+$/g, "")`, the blank test built on it, ASCII upper
    case, `split` on a one-character separator and per-character replacement. */
module Text {

  datatype Option<T> = None | Some(value: T)

  /** The ASCII members of the `\s` class of a JavaScript regular expression:
      space, tab, line feed, vertical tab, form feed and carriage return. */
  predicate IsSpace(c: char) {
    c == ' ' || '\t' <= c <= '\r'
  }

  /** The length of the leading run of whitespace. */
  function LeadingSpaces(s: string): (n: nat)
    ensures n <= |s|
    ensures forall i :: 0 <= i < n ==> IsSpace(s[i])
    ensures n == |s| || !IsSpace(s[n])
  {
    if s != [] && IsSpace(s[0]) then 1 + LeadingSpaces(s[1..]) else 0
  }

  /** The length of the trailing run of whitespace. */
  function TrailingSpaces(s: string): (n: nat)
    ensures n <= |s|
    ensures forall i :: |s| - n <= i < |s| ==> IsSpace(s[i])
    ensures n == |s| || !IsSpace(s[|s| - n - 1])
  {
    if s != [] && IsSpace(s[|s| - 1]) then 1 + TrailingSpaces(s[..|s| - 1]) else 0
  }

  /** The string without its leading run of whitespace. */
  function TrimStart(s: string): string {
    s[LeadingSpaces(s)..]
  }

  /** `t` is the part of `s` that starts at `lo` once only whitespace lies
      before and after it, and `t` neither starts nor ends with whitespace. */
  predicate TrimmedAt(s: string, lo: int, t: string) {
    0 <= lo && lo + |t| <= |s| && t == s[lo..lo + |t|]
    && (forall k :: 0 <= k < lo ==> IsSpace(s[k]))
    && (forall k :: lo + |t| <= k < |s| ==> IsSpace(s[k]))
    && (t == [] || (!IsSpace(t[0]) && !IsSpace(t[|t| - 1])))
  }

  /** `s.replace(/^\s+|\s+$/g, "")`: the first alternative removes the leading
      whitespace run, the second the run that reaches the end of the string. */
  function Trim(s: string): (t: string)
    ensures exists lo :: TrimmedAt(s, lo, t)
    ensures t == [] <==> forall k :: 0 <= k < |s| ==> IsSpace(s[k])
  {
    var lo := LeadingSpaces(s);
    var a := s[lo..];
    var t := a[..|a| - TrailingSpaces(a)];
    assert TrimmedAt(s, lo, t);
    t
  }

  lemma TrimIdempotent(s: string)
    ensures Trim(Trim(s)) == Trim(s)
  {
    var t := Trim(s);
    var lo :| TrimmedAt(s, lo, t);
    assert LeadingSpaces(t) == 0;
    assert TrailingSpaces(t) == 0;
  }

  /** The script's "empty after trimming" test: every character is
      whitespace. */
  predicate IsBlank(s: string) {
    forall i :: 0 <= i < |s| ==> IsSpace(s[i])
  }

  lemma BlankIffTrimsToEmpty(s: string)
    ensures IsBlank(s) <==> Trim(s) == ""
  {
  }

  /** A value read from a JavaScript object counts as present when it is
      defined and `value.replace(/^\s+|\s+$/g, "") !== ""`; `undefined` and
      `""` are falsy and fail the `value && ...` guard. */
  predicate HasText(v: Option<string>) {
    v.Some? && !IsBlank(v.value)
  }

  /** The presence test as the source writes it: defined, and not empty
      once trimmed. */
  lemma HasTextIffTrimmed(v: Option<string>)
    ensures HasText(v) <==> v.Some? && Trim(v.value) != ""
  {
    if v.Some? {
      BlankIffTrimsToEmpty(v.value);
    }
  }

  function UpperChar(c: char): (u: char)
    ensures 'a' <= c <= 'z' ==> u as int == c as int - 32
    ensures !('a' <= c <= 'z') ==> u == c
  {
    if 'a' <= c <= 'z' then (c as int - 32) as char else c
  }

  /** `toUpperCase` restricted to ASCII letters. */
  function Upper(s: string): (u: string)
    ensures |u| == |s|
    ensures forall i :: 0 <= i < |s| ==> u[i] == UpperChar(s[i])
  {
    if s == [] then [] else [UpperChar(s[0])] + Upper(s[1..])
  }

  function CountChar(s: string, c: char): nat {
    if s == [] then 0 else (if s[0] == c then 1 else 0) + CountChar(s[1..], c)
  }

  /** `s.split(sep)` for a one-character separator: every occurrence of `sep`
      ends a field, so the empty string gives one empty field. */
  function Split(s: string, sep: char): (parts: seq<string>)
    ensures |parts| >= 1
  {
    if s == [] then [""]
    else
      var rest := Split(s[1..], sep);
      if s[0] == sep then [""] + rest
      else [[s[0]] + rest[0]] + rest[1..]
  }

  /** `parts.join(sep)`. */
  function Join(parts: seq<string>, sep: char): string
    requires |parts| >= 1
  {
    if |parts| == 1 then parts[0] else parts[0] + [sep] + Join(parts[1..], sep)
  }

  lemma {:induction false} SplitCount(s: string, sep: char)
    ensures |Split(s, sep)| == CountChar(s, sep) + 1
  {
    if s != [] {
      SplitCount(s[1..], sep);
    }
  }

  lemma {:induction false} SplitFieldsHaveNoSeparator(s: string, sep: char)
    ensures forall i :: 0 <= i < |Split(s, sep)| ==> sep !in Split(s, sep)[i]
  {
    if s != [] {
      SplitFieldsHaveNoSeparator(s[1..], sep);
      var rest := Split(s[1..], sep);
      if s[0] != sep {
        assert forall i :: 1 <= i < |Split(s, sep)| ==> Split(s, sep)[i] == rest[i];
      }
    }
  }

  lemma {:induction false} JoinSplit(s: string, sep: char)
    ensures Join(Split(s, sep), sep) == s
  {
    if s != [] {
      JoinSplit(s[1..], sep);
      var rest := Split(s[1..], sep);
      assert s == [s[0]] + s[1..];
      if s[0] == sep {
        assert ([""] + rest)[1..] == rest;
      } else {
        JoinCons(s[0], rest, sep);
      }
    }
  }

  /** Putting a character in front of the first field puts it in front of the join. */
  lemma JoinCons(c: char, rest: seq<string>, sep: char)
    requires |rest| >= 1
    ensures Join([[c] + rest[0]] + rest[1..], sep) == [c] + Join(rest, sep)
  {
    var parts := [[c] + rest[0]] + rest[1..];
    if |rest| == 1 {
      assert parts == [[c] + rest[0]];
    } else {
      assert parts[1..] == rest[1..];
    }
  }

  /** A string without the separator is a single field. */
  lemma {:induction false} SplitWithoutSeparator(s: string, sep: char)
    requires sep !in s
    ensures Split(s, sep) == [s]
  {
    if s != [] {
      SplitWithoutSeparator(s[1..], sep);
      assert [s[0]] + s[1..] == s;
    }
  }

  /** One separator between two separator-free strings gives two fields. */
  lemma {:induction false} SplitAtOne(a: string, b: string, sep: char)
    requires sep !in a && sep !in b
    ensures Split(a + [sep] + b, sep) == [a, b]
  {
    if a == [] {
      SplitWithoutSeparator(b, sep);
      assert [] + [sep] + b == [sep] + b;
      assert ([sep] + b)[1..] == b;
    } else {
      var s := a + [sep] + b;
      assert s[0] == a[0] && s[0] != sep;
      assert s[1..] == a[1..] + [sep] + b;
      SplitAtOne(a[1..], b, sep);
      var rest := Split(s[1..], sep);
      assert rest == [a[1..], b];
      assert Split(s, sep) == [[s[0]] + rest[0]] + rest[1..];
      assert [a[0]] + a[1..] == a;
    }
  }

  /** A string with no whitespace at either end is its own trim. */
  lemma TrimUnchanged(s: string)
    requires s != [] && !IsSpace(s[0]) && !IsSpace(s[|s| - 1])
    ensures Trim(s) == s
  {
    assert LeadingSpaces(s) == 0;
    assert s[0..] == s;
    assert TrailingSpaces(s) == 0;
  }

  /** Upper case leaves a string of capitals unchanged. */
  lemma UpperUnchanged(s: string)
    requires forall i :: 0 <= i < |s| ==> !('a' <= s[i] <= 'z')
    ensures Upper(s) == s
  {
  }

  /** `s.replace(/[...]/g, "_")`: every character of `bad` becomes an underscore. */
  function ReplaceChars(s: string, bad: set<char>): (r: string)
    ensures |r| == |s|
    ensures forall i :: 0 <= i < |s| ==> r[i] == (if s[i] in bad then '_' else s[i])
  {
    if s == [] then [] else [if s[0] in bad then '_' else s[0]] + ReplaceChars(s[1..], bad)
  }

  lemma ReplaceCharsClears(s: string, bad: set<char>)
    requires '_' !in bad
    ensures forall i :: 0 <= i < |ReplaceChars(s, bad)| ==> ReplaceChars(s, bad)[i] !in bad
  {
  }

  lemma ReplaceCharsIdempotent(s: string, bad: set<char>)
    requires '_' !in bad
    ensures ReplaceChars(ReplaceChars(s, bad), bad) == ReplaceChars(s, bad)
  {
    var r := ReplaceChars(s, bad);
    assert forall i :: 0 <= i < |r| ==> ReplaceChars(r, bad)[i] == r[i];
  }

  /** Replacing a smaller set and then a larger one is replacing the larger one. */
  lemma ReplaceCharsAbsorbs(s: string, small: set<char>, large: set<char>)
    requires small <= large
    ensures ReplaceChars(ReplaceChars(s, small), large) == ReplaceChars(s, large)
  {
    var r := ReplaceChars(s, small);
    assert forall i :: 0 <= i < |s| ==> ReplaceChars(r, large)[i] == ReplaceChars(s, large)[i];
  }

  /** Decimal digits of a natural number, as `"" + n` writes them. */
  function NatToString(n: nat): (s: string)
    ensures |s| >= 1
    ensures forall i :: 0 <= i < |s| ==> '0' <= s[i] <= '9'
  {
    if n < 10 then [(n + 48) as char] else NatToString(n / 10) + [(n % 10 + 48) as char]
  }
}
