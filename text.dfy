/**
 * The string primitives the journaling application leans on, written out with
 * the semantics of the language that calls them: JavaScript's `toLowerCase`,
 * `includes`, `trim`, `split`, `parseInt` and `String(n)`, and Python's
 * `str.endswith`, `str.replace`, `str.strip`, `str.split`, `str.join` and `int`.
 * Strings are sequences of characters; case mapping and white space are the
 * ASCII ones.
 */
module Text {
  import opened Wrappers

  /** A JavaScript number as `parseInt` produces it: an integer or NaN. */
  datatype JsInt = Int(value: int) | NaN

  // ---------------------------------------------------------------------------
  // Characters

  predicate IsDigit(c: char) {
    '0' <= c <= '9'
  }

  function DigitValue(c: char): nat
    requires IsDigit(c)
  {
    c as int - '0' as int
  }

  function DigitChar(d: nat): (c: char)
    requires d < 10
    ensures IsDigit(c) && DigitValue(c) == d
  {
    ('0' as int + d) as char
  }

  predicate AllDigits(s: string) {
    forall i :: 0 <= i < |s| ==> IsDigit(s[i])
  }

  /**
   * Whose white-space rule applies: JavaScript's `trim()` and `parseInt`, or
   * Python's `str.strip()` and `int()`. Both remove the six ASCII white-space
   * characters; Python's also removes the four ASCII separators U+001C..U+001F.
   */
  datatype Lang = Js | Py

  predicate IsSpace(c: char, lang: Lang) {
    c == ' ' || c == '\t' || c == '\n' || c == '\r' || c == '\U{0B}' || c == '\U{0C}'
    || (lang == Py && '\U{1C}' <= c <= '\U{1F}')
  }

  lemma DigitIsNotSpace(c: char, lang: Lang)
    requires IsDigit(c)
    ensures !IsSpace(c, lang)
  {
  }

  predicate AllSpace(s: string, lang: Lang) {
    forall i :: 0 <= i < |s| ==> IsSpace(s[i], lang)
  }

  function LowerChar(c: char): char {
    if 'A' <= c <= 'Z' then (c as int + 32) as char else c
  }

  /** `String.prototype.toLowerCase`. */
  function Lower(s: string): (r: string)
    ensures |r| == |s|
    ensures forall i :: 0 <= i < |s| ==> r[i] == LowerChar(s[i])
  {
    seq(|s|, i requires 0 <= i < |s| => LowerChar(s[i]))
  }

  lemma LowerIdempotent(s: string)
    ensures Lower(Lower(s)) == Lower(s)
  {
    assert forall i :: 0 <= i < |s| ==> LowerChar(LowerChar(s[i])) == LowerChar(s[i]);
  }

  // ---------------------------------------------------------------------------
  // Searching

  predicate OccursAt(s: string, sub: string, i: int) {
    0 <= i && i + |sub| <= |s| && s[i..i + |sub|] == sub
  }

  /** `String.prototype.includes` / Python's `in` on strings. */
  predicate Contains(s: string, sub: string) {
    exists i | 0 <= i <= |s| - |sub| :: OccursAt(s, sub, i)
  }

  /** `str.endswith`. */
  predicate EndsWith(s: string, suffix: string) {
    |suffix| <= |s| && s[|s| - |suffix|..] == suffix
  }

  /** The number of occurrences of `c` in `s`. */
  function Count(s: string, c: char): nat {
    if |s| == 0 then 0 else (if s[0] == c then 1 else 0) + Count(s[1..], c)
  }

  // ---------------------------------------------------------------------------
  // Python's str.replace: every non-overlapping occurrence, scanning left to right

  function Replace(s: string, pat: string, rep: string): string
    requires |pat| > 0
    decreases |s|
  {
    if |s| < |pat| then s
    else if s[..|pat|] == pat then rep + Replace(s[|pat|..], pat, rep)
    else [s[0]] + Replace(s[1..], pat, rep)
  }

  /** Text holding no character that could start `pat` is copied unchanged, and `Replace` carries on after it. */
  lemma {:induction false} ReplaceCopies(d: string, tail: string, pat: string, rep: string)
    requires |pat| > 0
    requires pat[0] !in d
    ensures Replace(d + tail, pat, rep) == d + Replace(tail, pat, rep)
  {
    if |d| == 0 {
      assert d + tail == tail;
    } else {
      ReplaceCopies(d[1..], tail, pat, rep);
      ReplaceKeepsChar(d[0], d[1..] + tail, pat, rep);
      assert d + tail == [d[0]] + (d[1..] + tail);
      assert [d[0]] + (d[1..] + Replace(tail, pat, rep)) == d + Replace(tail, pat, rep);
    }
  }

  /** The first occurrence of `pat` after such text is the one replaced. */
  lemma ReplaceSkipsTo(d: string, pat: string, rep: string, rest: string)
    requires |pat| > 0
    requires pat[0] !in d
    ensures Replace(d + pat + rest, pat, rep) == d + rep + Replace(rest, pat, rep)
  {
    ReplaceCopies(d, pat + rest, pat, rep);
    ReplaceAtPattern(pat, rest, rep);
    assert d + pat + rest == d + (pat + rest);
  }

  /** An occurrence of `pat` at the start is replaced and `Replace` carries on after it. */
  lemma ReplaceAtPattern(pat: string, rest: string, rep: string)
    requires |pat| > 0
    ensures Replace(pat + rest, pat, rep) == rep + Replace(rest, pat, rep)
  {
    var s := pat + rest;
    assert s[..|pat|] == pat;
    assert s[|pat|..] == rest;
  }

  /** A character that cannot start `pat` is copied and `Replace` carries on after it. */
  lemma ReplaceKeepsChar(c: char, t: string, pat: string, rep: string)
    requires |pat| > 0 && c != pat[0]
    ensures Replace([c] + t, pat, rep) == [c] + Replace(t, pat, rep)
  {
    var s := [c] + t;
    if |s| >= |pat| {
      assert s[..|pat|][0] == c;
    }
    assert s[1..] == t;
  }

  // ---------------------------------------------------------------------------
  // White space

  function TrimStart(s: string, lang: Lang): (r: string)
    ensures |r| <= |s| && r == s[|s| - |r|..]
    ensures |r| > 0 ==> !IsSpace(r[0], lang)
  {
    if |s| > 0 && IsSpace(s[0], lang) then TrimStart(s[1..], lang) else s
  }

  function TrimEnd(s: string, lang: Lang): (r: string)
    ensures |r| <= |s| && r == s[..|r|]
    ensures |r| > 0 ==> !IsSpace(r[|r| - 1], lang)
  {
    if |s| > 0 && IsSpace(s[|s| - 1], lang) then TrimEnd(s[..|s| - 1], lang) else s
  }

  /** Python's `str.strip()` (`Py`) and JavaScript's `String.prototype.trim()` (`Js`). */
  function Strip(s: string, lang: Lang): string {
    TrimEnd(TrimStart(s, lang), lang)
  }

  lemma {:induction false} TrimStartEmptyIffBlank(s: string, lang: Lang)
    ensures TrimStart(s, lang) == [] <==> AllSpace(s, lang)
  {
    if |s| > 0 && IsSpace(s[0], lang) {
      TrimStartEmptyIffBlank(s[1..], lang);
      assert AllSpace(s, lang) <==> AllSpace(s[1..], lang) by {
        if AllSpace(s[1..], lang) {
          forall i | 0 <= i < |s| ensures IsSpace(s[i], lang) {
            if i > 0 { assert s[i] == s[1..][i - 1]; }
          }
        }
      }
    }
  }

  lemma {:induction false} TrimEndKeepsLeadingText(t: string, lang: Lang)
    requires |t| > 0 && !IsSpace(t[0], lang)
    ensures |TrimEnd(t, lang)| > 0
  {
    if IsSpace(t[|t| - 1], lang) {
      TrimEndKeepsLeadingText(t[..|t| - 1], lang);
    }
  }

  /** Stripping leaves nothing exactly when the text is all white space. */
  lemma StripEmptyIffBlank(s: string, lang: Lang)
    ensures Strip(s, lang) == [] <==> AllSpace(s, lang)
  {
    TrimStartEmptyIffBlank(s, lang);
    var t := TrimStart(s, lang);
    if t != [] {
      assert !IsSpace(t[0], lang);
      TrimEndKeepsLeadingText(t, lang);
    }
  }

  lemma StripNoOuterSpace(s: string, lang: Lang)
    requires |s| > 0 && !IsSpace(s[0], lang) && !IsSpace(s[|s| - 1], lang)
    ensures Strip(s, lang) == s
  {
  }

  // ---------------------------------------------------------------------------
  // Splitting and joining on one separator character

  /** Python's `s.split(sep)` and JavaScript's `s.split(sep)` for a one-character separator. */
  function Split(s: string, sep: char): (r: seq<string>)
    ensures |r| >= 1
  {
    if |s| == 0 then [""]
    else
      var rest := Split(s[1..], sep);
      if s[0] == sep then [""] + rest
      else [[s[0]] + rest[0]] + rest[1..]
  }

  /** Python's `sep.join(xs)`. */
  function Join(xs: seq<string>, sep: string): string {
    if |xs| == 0 then ""
    else if |xs| == 1 then xs[0]
    else xs[0] + sep + Join(xs[1..], sep)
  }

  lemma {:induction false} SplitNoSep(a: string, sep: char)
    requires sep !in a
    ensures Split(a, sep) == [a]
  {
    if |a| > 0 {
      SplitNoSep(a[1..], sep);
      assert a == [a[0]] + a[1..];
    }
  }

  /** A separator cuts the split exactly at its position. */
  lemma {:induction false} SplitAppend(a: string, sep: char, b: string)
    ensures Split(a + [sep] + b, sep) == Split(a, sep) + Split(b, sep)
  {
    var s := a + [sep] + b;
    if |a| == 0 {
      assert s == [sep] + b;
      assert s[1..] == b;
    } else {
      assert s[1..] == a[1..] + [sep] + b;
      SplitAppend(a[1..], sep, b);
    }
  }

  lemma {:induction false} SplitCount(s: string, sep: char)
    ensures |Split(s, sep)| == Count(s, sep) + 1
  {
    if |s| > 0 {
      SplitCount(s[1..], sep);
    }
  }

  lemma {:induction false} SplitPiecesHaveNoSep(s: string, sep: char)
    ensures forall k :: 0 <= k < |Split(s, sep)| ==> sep !in Split(s, sep)[k]
  {
    if |s| > 0 {
      SplitPiecesHaveNoSep(s[1..], sep);
    }
  }

  /**
   * Splitting `p + xs[0] <sep><pad> xs[1] <sep><pad> ...` on the separator gives
   * back the pieces, each after the first still carrying the padding.
   */
  lemma {:induction false} SplitJoin(p: string, xs: seq<string>, sep: char, pad: string)
    requires |xs| >= 1
    requires sep !in p && sep !in pad
    requires forall k :: 0 <= k < |xs| ==> sep !in xs[k]
    ensures Split(p + Join(xs, [sep] + pad), sep)
            == [p + xs[0]] + seq(|xs| - 1, k requires 0 <= k < |xs| - 1 => pad + xs[k + 1])
    decreases |xs|
  {
    if |xs| == 1 {
      SplitNoSep(p + xs[0], sep);
    } else {
      var tail := Join(xs[1..], [sep] + pad);
      assert p + Join(xs, [sep] + pad) == (p + xs[0]) + [sep] + (pad + tail);
      SplitAppend(p + xs[0], sep, pad + tail);
      SplitNoSep(p + xs[0], sep);
      SplitJoin(pad, xs[1..], sep, pad);
    }
  }

  /** `s.split(sep)[0]`: the text before the first separator. */
  function BeforeFirst(s: string, sep: char): string {
    Split(s, sep)[0]
  }

  /** When the separator occurs, the text before it is followed by it. */
  lemma BeforeFirstThenSep(s: string, sep: char)
    ensures sep in s ==> BeforeFirst(s, sep) + [sep] <= s
  {
    BeforeFirstIsPrefix(s, sep);
    var d := BeforeFirst(s, sep);
    if sep in s {
      assert d + [sep] == s[..|d| + 1];
    }
  }

  lemma {:induction false} BeforeFirstIsPrefix(s: string, sep: char)
    ensures sep !in BeforeFirst(s, sep)
    ensures |BeforeFirst(s, sep)| <= |s| && BeforeFirst(s, sep) == s[..|BeforeFirst(s, sep)|]
    ensures sep !in s ==> BeforeFirst(s, sep) == s
    ensures sep in s ==> |BeforeFirst(s, sep)| < |s| && s[|BeforeFirst(s, sep)|] == sep
  {
    SplitPiecesHaveNoSep(s, sep);
    if |s| > 0 {
      BeforeFirstIsPrefix(s[1..], sep);
      if sep !in s { SplitNoSep(s, sep); }
    }
  }

  // ---------------------------------------------------------------------------
  // Decimal numerals

  /** The value of a string of decimal digits (most significant first). */
  function DigitsValue(d: string): nat
    requires AllDigits(d)
  {
    if |d| == 0 then 0 else DigitsValue(d[..|d| - 1]) * 10 + DigitValue(d[|d| - 1])
  }

  function NatToString(n: nat): (r: string)
    ensures |r| > 0 && AllDigits(r)
  {
    if n < 10 then [DigitChar(n)] else NatToString(n / 10) + [DigitChar(n % 10)]
  }

  /** JavaScript's `String(n)` and Python's `str(n)` for an integer. */
  function IntToString(n: int): (r: string)
    ensures |r| > 0 && !IsSpace(r[0], Py) && IsDigit(r[|r| - 1])
  {
    if n < 0 then "-" + NatToString(-n) else NatToString(n)
  }

  lemma {:induction false} DigitsValueOfNatToString(n: nat)
    ensures DigitsValue(NatToString(n)) == n
  {
    if n >= 10 {
      DigitsValueOfNatToString(n / 10);
      var s := NatToString(n);
      assert s[..|s| - 1] == NatToString(n / 10);
    }
  }

  /** Printed integers contain only digits and a leading minus sign. */
  lemma IntToStringChars(n: int)
    ensures forall i :: 0 <= i < |IntToString(n)| ==> IsDigit(IntToString(n)[i]) || IntToString(n)[i] == '-'
  {
  }

  /** Python's `int(s)` for a string: surrounding white space, an optional sign, decimal digits. */
  function PyInt(s: string): Option<int> {
    var t := Strip(s, Py);
    if |t| > 0 && (t[0] == '+' || t[0] == '-') then
      if |t| > 1 && AllDigits(t[1..]) then
        var v: int := DigitsValue(t[1..]);
        Some(if t[0] == '-' then -v else v)
      else None
    else if |t| > 0 && AllDigits(t) then Some(DigitsValue(t))
    else None
  }

  /** `int(str(n)) == n`. */
  lemma PyIntOfIntToString(n: int)
    ensures PyInt(IntToString(n)) == Some(n)
  {
    if n < 0 {
      PyIntOfNegativeDigits(NatToString(-n));
      DigitsValueOfNatToString(-n);
    } else {
      PyIntOfDigits(NatToString(n));
      DigitsValueOfNatToString(n);
    }
  }

  /** `int()` of a minus sign followed by digits is the negated decimal value. */
  lemma PyIntOfNegativeDigits(digits: string)
    requires |digits| > 0 && AllDigits(digits)
    ensures PyInt("-" + digits) == Some(-(DigitsValue(digits) as int))
  {
    var s := "-" + digits;
    assert s[0] == '-' && s[1..] == digits;
    assert s[|s| - 1] == digits[|digits| - 1];
    StripOfDigitEnded(s);
  }

  /** `strip()` leaves a text alone that starts with no white space and ends in a digit. */
  lemma StripOfDigitEnded(s: string)
    requires |s| > 0 && !IsSpace(s[0], Py) && IsDigit(s[|s| - 1])
    ensures Strip(s, Py) == s
  {
    DigitIsNotSpace(s[|s| - 1], Py);
    StripNoOuterSpace(s, Py);
  }

  /** `int()` of a run of digits is their decimal value. */
  lemma PyIntOfDigits(digits: string)
    requires |digits| > 0 && AllDigits(digits)
    ensures PyInt(digits) == Some(DigitsValue(digits))
  {
    DigitIsNotSpace(digits[0], Py);
    StripOfDigitEnded(digits);
  }

  /** `int()` rejects text with a character that is neither a digit nor a leading sign. */
  lemma PyIntRejects(s: string, i: int)
    requires |s| > 0 && !IsSpace(s[0], Py) && !IsSpace(s[|s| - 1], Py)
    requires 0 <= i < |s| && !IsDigit(s[i])
    requires i > 0 || (s[0] != '+' && s[0] != '-')
    ensures PyInt(s) == None
  {
    StripNoOuterSpace(s, Py);
    if |s| > 1 && (s[0] == '+' || s[0] == '-') {
      assert !IsDigit(s[1..][i - 1]);
    }
  }

  lemma PyIntOfEmpty()
    ensures PyInt("") == None
  {
  }

  /** The longest prefix of `s` made of decimal digits. */
  function DigitPrefix(s: string): (r: string)
    ensures AllDigits(r) && |r| <= |s| && r == s[..|r|]
  {
    if |s| > 0 && IsDigit(s[0]) then [s[0]] + DigitPrefix(s[1..]) else []
  }

  /** JavaScript's `parseInt(s, 10)`: leading white space, an optional sign, the longest digit prefix. */
  function JsParseInt(s: string): JsInt {
    var t := TrimStart(s, Js);
    if |t| > 0 && t[0] == '-' then Negate(ParseDigitPrefix(t[1..]))
    else if |t| > 0 && t[0] == '+' then ParseDigitPrefix(t[1..])
    else ParseDigitPrefix(t)
  }

  function ParseDigitPrefix(u: string): JsInt {
    var d := DigitPrefix(u);
    if |d| == 0 then NaN else Int(DigitsValue(d))
  }

  function Negate(x: JsInt): JsInt {
    match x
    case Int(v) => Int(-v)
    case NaN => NaN
  }

  lemma {:induction false} DigitPrefixStopsAt(d: string, rest: string)
    requires AllDigits(d)
    requires rest == [] || !IsDigit(rest[0])
    ensures DigitPrefix(d + rest) == d
  {
    if |d| > 0 {
      assert (d + rest)[1..] == d[1..] + rest;
      DigitPrefixStopsAt(d[1..], rest);
    }
  }

  lemma ParseDigitPrefixOf(digits: string, rest: string)
    requires |digits| > 0 && AllDigits(digits)
    requires rest == [] || !IsDigit(rest[0])
    ensures ParseDigitPrefix(digits + rest) == Int(DigitsValue(digits))
  {
    DigitPrefixStopsAt(digits, rest);
  }

  lemma JsParseIntOfDigits(digits: string, rest: string)
    requires |digits| > 0 && AllDigits(digits)
    requires rest == [] || !IsDigit(rest[0])
    ensures JsParseInt(digits + rest) == Int(DigitsValue(digits))
  {
    var s := digits + rest;
    assert s[0] == digits[0];
    JsParseIntUnsigned(s);
    ParseDigitPrefixOf(digits, rest);
  }

  /** With no white space or sign in front, `parseInt` reads the digit prefix. */
  lemma JsParseIntUnsigned(s: string)
    requires |s| > 0 && IsDigit(s[0])
    ensures JsParseInt(s) == ParseDigitPrefix(s)
  {
    DigitIsNotSpace(s[0], Js);
    assert TrimStart(s, Js) == s;
  }

  /** `parseInt` reads back a printed natural number and stops at the first character that is not a digit. */
  lemma JsParseIntOfNatToString(n: nat, rest: string)
    requires rest == [] || !IsDigit(rest[0])
    ensures JsParseInt(NatToString(n) + rest) == Int(n)
  {
    JsParseIntOfDigits(NatToString(n), rest);
    DigitsValueOfNatToString(n);
  }

  /** `parseInt(String(n))` is `n` for a natural number. */
  lemma JsParseIntOfNatString(n: nat)
    ensures JsParseInt(IntToString(n)) == Int(n)
  {
    JsParseIntOfNatToString(n, "");
    assert NatToString(n) + "" == IntToString(n);
  }

  lemma JsParseIntOfEmpty()
    ensures JsParseInt("") == NaN
  {
  }
}
