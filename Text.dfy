/**
 * The handful of JavaScript string primitives the application relies on:
 * the `\s` whitespace class, `toLowerCase`, `includes`, `trim`,
 * `replace(/\s+/g, '')` and `Number(...)` on a string.
 */
module Text {
  import opened Wrappers
  import opened Sequences

  /** JavaScript's `\s` class; `String.prototype.trim` removes exactly these characters. */
  predicate IsWhitespace(c: char) {
    || c == ' ' || c == '\t' || c == '\n' || c == '\r' || c == '\U{000B}' || c == '\U{000C}'
    || c == '\U{00A0}' || c == '\U{1680}' || ('\U{2000}' <= c <= '\U{200A}')
    || c == '\U{2028}' || c == '\U{2029}' || c == '\U{202F}' || c == '\U{205F}'
    || c == '\U{3000}' || c == '\U{FEFF}'
  }

  predicate IsUpper(c: char) {
    'A' <= c <= 'Z'
  }

  predicate IsDigit(c: char) {
    '0' <= c <= '9'
  }

  predicate AllDigits(s: string) {
    forall k :: 0 <= k < |s| ==> IsDigit(s[k])
  }

  predicate NoWhitespace(s: string) {
    forall k :: 0 <= k < |s| ==> !IsWhitespace(s[k])
  }

  /** JavaScript truthiness of an optional string: present and non-empty. */
  predicate Truthy(v: Option<string>) {
    v.Some? && v.value != ""
  }

  /** `indexOf`: the first position of `c` in `s`, if any. */
  function IndexOf(s: string, c: char): (r: Option<nat>)
    ensures r.None? <==> c !in s
    ensures r.Some? ==> r.value < |s| && s[r.value] == c && c !in s[..r.value]
  {
    if s == [] then None
    else if s[0] == c then Some(0)
    else
      match IndexOf(s[1..], c)
      case None => None
      case Some(i) =>
        assert s[..i + 1] == [s[0]] + s[1..][..i];
        Some(i + 1)
  }

  function ToLowerChar(c: char): char {
    if IsUpper(c) then (c as int + 32) as char else c
  }

  /** `toLowerCase`, for the ASCII letters. */
  function ToLower(s: string): (r: string)
    ensures |r| == |s|
    ensures forall i :: 0 <= i < |s| ==> !IsUpper(r[i])
    ensures forall i :: 0 <= i < |s| && !IsUpper(s[i]) ==> r[i] == s[i]
    ensures forall i :: 0 <= i < |s| && IsUpper(s[i]) ==> r[i] as int == s[i] as int + 32
  {
    seq(|s|, i requires 0 <= i < |s| => ToLowerChar(s[i]))
  }

  /** `a` and `b` are the same letter, or one is the upper-case form of the other. */
  predicate SameLetterUpToCase(a: char, b: char) {
    a == b || (IsUpper(a) && b as int == a as int + 32) || (IsUpper(b) && a as int == b as int + 32)
  }

  /** Two strings that differ only in the case of ASCII letters lower to the same string. */
  lemma CaseVariantsLowerAlike(s: string, t: string)
    requires |s| == |t|
    requires forall i :: 0 <= i < |s| ==> SameLetterUpToCase(s[i], t[i])
    ensures ToLower(s) == ToLower(t)
  {
    forall i | 0 <= i < |s|
      ensures ToLower(s)[i] == ToLower(t)[i]
    {
      assert SameLetterUpToCase(s[i], t[i]);
    }
  }

  /** `includes`: `needle` occurs in `hay` as a contiguous substring. */
  predicate Contains(hay: string, needle: string) {
    exists i :: 0 <= i <= |hay| && OccursAt(hay, needle, i)
  }

  predicate OccursAt(hay: string, needle: string, i: nat) {
    i + |needle| <= |hay| && hay[i..i + |needle|] == needle
  }

  /** Lowering a slice is slicing the lowered string. */
  lemma ToLowerSlice(s: string, i: nat, j: nat)
    requires i <= j <= |s|
    ensures ToLower(s)[i..j] == ToLower(s[i..j])
  {
  }

  /** Leading whitespace removed: the result is a suffix of `s`, and only whitespace was dropped. */
  function TrimStart(s: string): (r: string)
    ensures |r| <= |s| && r == s[|s| - |r|..]
    ensures forall k :: 0 <= k < |s| - |r| ==> IsWhitespace(s[k])
    ensures r == [] || !IsWhitespace(r[0])
  {
    if s != [] && IsWhitespace(s[0]) then
      var r := TrimStart(s[1..]);
      assert s[1..][|s| - 1 - |r|..] == s[|s| - |r|..];
      r
    else s
  }

  /** Trailing whitespace removed: the result is a prefix of `s`, and only whitespace was dropped. */
  function TrimEnd(s: string): (r: string)
    ensures |r| <= |s| && r == s[..|r|]
    ensures forall k :: |r| <= k < |s| ==> IsWhitespace(s[k])
    ensures r == [] || !IsWhitespace(r[|r| - 1])
  {
    if s != [] && IsWhitespace(s[|s| - 1]) then TrimEnd(s[..|s| - 1]) else s
  }

  /** `trim`. */
  function Trim(s: string): (r: string)
    ensures r == [] || (!IsWhitespace(r[0]) && !IsWhitespace(r[|r| - 1]))
  {
    TrimEnd(TrimStart(s))
  }

  /** Every character of `s` that is not whitespace survives `trim`. */
  lemma TrimKeeps(s: string, k: nat)
    requires k < |s| && !IsWhitespace(s[k])
    ensures s[k] in Trim(s)
  {
    var a := TrimStart(s);
    var i := k - (|s| - |a|);
    assert a[i] == s[k];
    assert i < |TrimEnd(a)|;
    assert Trim(s)[i] == s[k];
  }

  /** A string without whitespace is left alone by `trim`. */
  lemma TrimNoWhitespace(s: string)
    requires NoWhitespace(s)
    ensures Trim(s) == s
  {
  }

  /** `split(sep)` for a one-character separator: the pieces between separators, empty ones included. */
  function Split(s: string, sep: char): (parts: seq<string>)
    ensures |parts| >= 1
    decreases |s|
  {
    match IndexOf(s, sep)
    case None => [s]
    case Some(i) => [s[..i]] + Split(s[i + 1..], sep)
  }

  /** `join(sep)` for a one-character separator. */
  function Join(parts: seq<string>, sep: char): string {
    if parts == [] then ""
    else if |parts| == 1 then parts[0]
    else parts[0] + [sep] + Join(parts[1..], sep)
  }

  /** Splitting a joined list gives the list back when no piece holds the separator. */
  lemma {:induction false} SplitJoin(parts: seq<string>, sep: char)
    requires parts != []
    requires forall k :: 0 <= k < |parts| ==> sep !in parts[k]
    ensures Split(Join(parts, sep), sep) == parts
  {
    if |parts| > 1 {
      var p := parts[0];
      var rest := Join(parts[1..], sep);
      var s := p + [sep] + rest;
      assert s[..|p|] == p;
      assert IndexOf(s, sep) == Some(|p|) by {
        assert s[|p|] == sep;
      }
      assert s[|p| + 1..] == rest;
      SplitJoin(parts[1..], sep);
    }
  }

  /** Leading whitespace before a non-whitespace start is exactly what `trimStart` drops. */
  lemma {:induction false} TrimStartPadding(w: string, x: string)
    requires forall k :: 0 <= k < |w| ==> IsWhitespace(w[k])
    requires x == [] || !IsWhitespace(x[0])
    ensures TrimStart(w + x) == x
  {
    if w == [] {
      assert w + x == x;
    } else {
      assert (w + x)[1..] == w[1..] + x;
      TrimStartPadding(w[1..], x);
    }
  }

  /** Trailing whitespace after a non-whitespace end is exactly what `trimEnd` drops. */
  lemma {:induction false} TrimEndPadding(x: string, w: string)
    requires forall k :: 0 <= k < |w| ==> IsWhitespace(w[k])
    requires x == [] || !IsWhitespace(x[|x| - 1])
    ensures TrimEnd(x + w) == x
  {
    if w == [] {
      assert x + w == x;
    } else {
      assert (x + w)[..|x + w| - 1] == x + w[..|w| - 1];
      TrimEndPadding(x, w[..|w| - 1]);
    }
  }

  /** `trim` of a padded text gives the text back. */
  lemma TrimPadded(before: string, core: string, after: string)
    requires forall k :: 0 <= k < |before| ==> IsWhitespace(before[k])
    requires forall k :: 0 <= k < |after| ==> IsWhitespace(after[k])
    requires core != [] && !IsWhitespace(core[0]) && !IsWhitespace(core[|core| - 1])
    ensures Trim(before + core + after) == core
  {
    assert before + core + after == before + (core + after);
    TrimStartPadding(before, core + after);
    TrimEndPadding(core, after);
  }

  /** A text made of whitespace only trims to nothing. */
  lemma TrimWhitespaceOnly(s: string)
    requires forall k :: 0 <= k < |s| ==> IsWhitespace(s[k])
    ensures Trim(s) == ""
  {
  }

  /** The number of whitespace characters in `s`. */
  function WhitespaceCount(s: string): (n: nat)
    ensures n <= |s|
  {
    if s == [] then 0 else (if IsWhitespace(s[0]) then 1 else 0) + WhitespaceCount(s[1..])
  }

  /** Counting whitespace distributes over concatenation. */
  lemma {:induction false} WhitespaceCountConcat(a: string, b: string)
    ensures WhitespaceCount(a + b) == WhitespaceCount(a) + WhitespaceCount(b)
  {
    if a == [] {
      assert a + b == b;
    } else {
      assert (a + b)[1..] == a[1..] + b;
      WhitespaceCountConcat(a[1..], b);
    }
  }

  /** `replace(/\s+/g, '')`: the characters of `s` that are not whitespace, in order. */
  function RemoveWhitespace(s: string): (r: string)
    ensures NoWhitespace(r)
    ensures forall c :: c in r <==> c in s && !IsWhitespace(c)
    ensures IsSubsequence(r, s)
    ensures |r| == |s| - WhitespaceCount(s)
    ensures NoWhitespace(s) ==> r == s
  {
    var keep := (c: char) => !IsWhitespace(c);
    FilterKeepsAll'(s, keep);
    FilterIsSubsequence(s, keep);
    FilterDropsWhitespace(s, keep);
    Filter(s, keep)
  }

  lemma {:induction false} FilterDropsWhitespace(s: string, keep: char -> bool)
    requires forall c :: keep(c) == !IsWhitespace(c)
    ensures |Filter(s, keep)| == |s| - WhitespaceCount(s)
  {
    if s != [] {
      FilterDropsWhitespace(s[1..], keep);
    }
  }

  lemma FilterKeepsAll'(s: string, keep: char -> bool)
    requires forall c :: keep(c) == !IsWhitespace(c)
    ensures NoWhitespace(s) ==> Filter(s, keep) == s
  {
    if NoWhitespace(s) {
      FilterKeepsAll(s, keep);
    }
  }

  function DigitValue(c: char): nat
    requires IsDigit(c)
  {
    c as int - '0' as int
  }

  function DigitChar(d: nat): (c: char)
    requires d < 10
    ensures IsDigit(c) && DigitValue(c) == d
  {
    ('0' as int + d) as char
  }

  /** The value of a run of decimal digits, most significant first. */
  function DigitsValue(s: string): nat
    requires AllDigits(s)
  {
    if s == [] then 0 else 10 * DigitsValue(s[..|s| - 1]) + DigitValue(s[|s| - 1])
  }

  /** The shortest decimal numeral of `n`, as JavaScript prints a non-negative integer. */
  function NatToDecimal(n: nat): (r: string)
    ensures |r| > 0 && AllDigits(r)
    decreases n
  {
    if n < 10 then [DigitChar(n)] else NatToDecimal(n / 10) + [DigitChar(n % 10)]
  }

  lemma {:induction false} DecimalRoundTrip(n: nat)
    ensures DigitsValue(NatToDecimal(n)) == n
    decreases n
  {
    if n >= 10 {
      DecimalRoundTrip(n / 10);
      var r := NatToDecimal(n);
      assert r[..|r| - 1] == NatToDecimal(n / 10);
    }
  }

  /**
   * `Number(s)` on a string, restricted to integers: surrounding whitespace is
   * ignored, a blank string is 0, an optionally signed run of decimal digits is
   * its value, and anything else is NaN, written None.
   */
  function ParseNumber(s: string): Option<int> {
    ParseTrimmed(Trim(s))
  }

  predicate IsSign(c: char) {
    c == '+' || c == '-'
  }

  function ParseTrimmed(t: string): Option<int> {
    if t == [] then Some(0)
    else if IsSign(t[0]) && |t| > 1 && AllDigits(t[1..]) then
      var v: int := DigitsValue(t[1..]);
      Some(if t[0] == '-' then -v else v)
    else if AllDigits(t) then Some(DigitsValue(t))
    else None
  }

  /** A blank or whitespace-only string is the number 0. */
  lemma BlankIsZero(s: string)
    requires forall k :: 0 <= k < |s| ==> IsWhitespace(s[k])
    ensures ParseNumber(s) == Some(0)
  {
    TrimWhitespaceOnly(s);
  }

  /** The decimal numeral of a natural number reads back as that number. */
  lemma ParseNumberOfDecimal(n: nat)
    ensures ParseNumber(NatToDecimal(n)) == Some(n)
  {
    var s := NatToDecimal(n);
    DigitsHaveNoWhitespace(s);
    TrimNoWhitespace(s);
    DecimalRoundTrip(n);
    ParseDigits(s);
  }

  lemma DigitsHaveNoWhitespace(s: string)
    requires AllDigits(s)
    ensures NoWhitespace(s)
  {
    forall k | 0 <= k < |s| ensures !IsWhitespace(s[k]) {
      assert IsDigit(s[k]);
    }
  }

  lemma ParseDigits(s: string)
    requires |s| > 0 && AllDigits(s) && Trim(s) == s
    ensures ParseNumber(s) == Some(DigitsValue(s) as int)
  {
    TrimmedDigits(s);
  }

  lemma TrimmedDigits(t: string)
    requires |t| > 0 && AllDigits(t)
    ensures ParseTrimmed(t) == Some(DigitsValue(t) as int)
  {
    assert IsDigit(t[0]) && !IsSign(t[0]);
  }

  /** A negative numeral reads back as the negative number. */
  lemma ParseNumberOfNegative(n: nat, s: string)
    requires s == "-" + NatToDecimal(n)
    ensures ParseNumber(s) == Some(-(n as int))
  {
    MinusNumeral(n, s);
    ParseMinusDigits(s, n);
  }

  lemma MinusNumeral(n: nat, s: string)
    requires s == "-" + NatToDecimal(n)
    ensures |s| > 1 && s[0] == '-' && AllDigits(s[1..]) && Trim(s) == s && DigitsValue(s[1..]) == n
  {
    var d := NatToDecimal(n);
    assert s[1..] == d;
    assert NoWhitespace(s) by {
      forall k | 1 <= k < |s| ensures !IsWhitespace(s[k]) {
        assert s[k] == d[k - 1] && IsDigit(d[k - 1]);
      }
    }
    TrimNoWhitespace(s);
    DecimalRoundTrip(n);
  }

  lemma ParseMinusDigits(s: string, n: nat)
    requires |s| > 1 && s[0] == '-' && AllDigits(s[1..]) && Trim(s) == s && DigitsValue(s[1..]) == n
    ensures ParseNumber(s) == Some(-(n as int))
  {
  }

  /**
   * In the integer-numeral reading of `Number`, a string holding a character
   * that is neither whitespace, nor a digit, nor a sign (a letter, `.`, `$`,
   * `,`) is not a number.
   */
  lemma StrayCharacterIsNaN(s: string, k: nat)
    requires k < |s| && !IsWhitespace(s[k]) && !IsDigit(s[k]) && !IsSign(s[k])
    ensures ParseNumber(s) == None
  {
    TrimKeeps(s, k);
    var t := Trim(s);
    var i :| 0 <= i < |t| && t[i] == s[k];
    StrayBlocksDigits(t, i);
    NonNumeralIsNaN(s);
  }

  /** In particular, a string holding an ASCII letter is not a number. */
  lemma LetterIsNaN(s: string, k: nat)
    requires k < |s| && ('a' <= s[k] <= 'z' || 'A' <= s[k] <= 'Z')
    ensures ParseNumber(s) == None
  {
    StrayCharacterIsNaN(s, k);
  }

  lemma StrayBlocksDigits(t: string, i: nat)
    requires i < |t| && !IsDigit(t[i]) && !IsSign(t[i])
    ensures !AllDigits(t)
    ensures |t| > 1 && IsSign(t[0]) ==> !AllDigits(t[1..])
  {
    if |t| > 1 && IsSign(t[0]) {
      assert t[1..][i - 1] == t[i];
    }
  }

  /** A run of digits padded with whitespace reads as its value; leading zeros add nothing. */
  lemma ParsePaddedNumeral(before: string, digits: string, after: string)
    requires forall k :: 0 <= k < |before| ==> IsWhitespace(before[k])
    requires forall k :: 0 <= k < |after| ==> IsWhitespace(after[k])
    requires |digits| > 0 && AllDigits(digits)
    ensures ParseNumber(before + digits + after) == Some(DigitsValue(digits) as int)
  {
    assert IsDigit(digits[0]) && IsDigit(digits[|digits| - 1]);
    TrimPadded(before, digits, after);
    TrimmedDigits(digits);
  }

  /** A sign followed by digits, padded with whitespace: `+` keeps the value and `-` negates it. */
  lemma ParsePaddedSigned(before: string, numeral: string, after: string)
    requires forall k :: 0 <= k < |before| ==> IsWhitespace(before[k])
    requires forall k :: 0 <= k < |after| ==> IsWhitespace(after[k])
    requires |numeral| > 1 && IsSign(numeral[0]) && AllDigits(numeral[1..])
    ensures ParseNumber(before + numeral + after)
         == Some(if numeral[0] == '-' then -(DigitsValue(numeral[1..]) as int) else DigitsValue(numeral[1..]) as int)
  {
    assert IsDigit(numeral[1..][|numeral| - 2]);
    PaddedTrimsTo(before, numeral, after);
    TrimmedSigned(numeral);
  }

  lemma TrimmedSigned(t: string)
    requires |t| > 1 && IsSign(t[0]) && AllDigits(t[1..])
    ensures ParseTrimmed(t) == Some(if t[0] == '-' then -(DigitsValue(t[1..]) as int) else DigitsValue(t[1..]) as int)
  {
  }

  lemma PaddedTrimsTo(before: string, core: string, after: string)
    requires forall k :: 0 <= k < |before| ==> IsWhitespace(before[k])
    requires forall k :: 0 <= k < |after| ==> IsWhitespace(after[k])
    requires core != [] && !IsWhitespace(core[0]) && !IsWhitespace(core[|core| - 1])
    ensures ParseNumber(before + core + after) == ParseTrimmed(core)
  {
    TrimPadded(before, core, after);
  }

  lemma NonNumeralIsNaN(s: string)
    requires Trim(s) != [] && !AllDigits(Trim(s))
    requires |Trim(s)| > 1 && IsSign(Trim(s)[0]) ==> !AllDigits(Trim(s)[1..])
    ensures ParseNumber(s) == None
  {
  }
}
