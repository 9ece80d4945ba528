/** The parts of Ruby's String and Integer classes that the configuration code
    relies on: prefix, substring and line-anchored tests, Integer#to_s, String#to_i,
    String#split with a one-character separator, String#strip, Array#join, and the
    percent-escaping done by URI.escape. */
module RubyStrings {

  predicate IsDigit(c: char) {
    '0' <= c <= '9'
  }

  predicate IsAsciiLetter(c: char) {
    'a' <= c <= 'z' || 'A' <= c <= 'Z'
  }

  /** Ruby's `\w`: ASCII letters, digits and the underscore. */
  predicate IsWordChar(c: char) {
    IsAsciiLetter(c) || IsDigit(c) || c == '_'
  }

  /** The whitespace that String#strip and String#to_i skip. */
  predicate IsSpace(c: char) {
    c == ' ' || c == '\t' || c == '\n' || c == '\U{000B}' || c == '\U{000C}' || c == '\r'
  }

  predicate AllDigits(s: string) {
    forall i :: 0 <= i < |s| ==> IsDigit(s[i])
  }

  predicate StartsWith(s: string, p: string) {
    |p| <= |s| && s[..|p|] == p
  }

  /** String#include?. */
  predicate Contains(s: string, sub: string)
    decreases |s|
  {
    StartsWith(s, sub) || (s != [] && Contains(s[1..], sub))
  }

  /** A text cannot include a string that has a character the text lacks. */
  lemma {:induction false} MissingCharNotContained(s: string, sub: string, x: char)
    requires x in sub && x !in s
    ensures !Contains(s, sub)
    decreases |s|
  {
    if s != [] {
      MissingCharNotContained(s[1..], sub, x);
    }
  }

  /** Whether `p` occurs at the start of a line of `s`, which is what a Ruby regular
      expression anchored with `^` tests: `^` matches at the start of the string and
      after every newline. `atLineStart` says whether position 0 of `s` starts a line. */
  predicate OccursAtLineStart(s: string, p: string, atLineStart: bool)
    decreases |s|
  {
    (atLineStart && StartsWith(s, p)) || (s != [] && OccursAtLineStart(s[1..], p, s[0] == '\n'))
  }

  /** On a string without newlines the line anchor is the string anchor. */
  lemma {:induction false} SingleLineOccurrence(s: string, p: string, atLineStart: bool)
    requires '\n' !in s
    ensures OccursAtLineStart(s, p, atLineStart) <==> atLineStart && StartsWith(s, p)
  {
    if s != [] {
      assert s[0] != '\n';
      SingleLineOccurrence(s[1..], p, false);
    }
  }

  // ---------------------------------------------------------------------------
  // Integer#to_s and String#to_i

  function DigitChar(d: int): (c: char)
    requires 0 <= d < 10
    ensures IsDigit(c)
  {
    ('0' as int + d) as char
  }

  function DigitValue(c: char): (d: int)
    requires IsDigit(c)
    ensures 0 <= d < 10
  {
    c as int - '0' as int
  }

  /** Integer#to_s of a non-negative integer: its decimal digits, most significant first. */
  function NatToString(n: nat): (s: string)
    ensures s != [] && AllDigits(s)
    decreases n
  {
    if n < 10 then [DigitChar(n)] else NatToString(n / 10) + [DigitChar(n % 10)]
  }

  /** Integer#to_s. */
  function IntToString(i: int): string {
    if i < 0 then "-" + NatToString(-i) else NatToString(i)
  }

  /** The number a string of decimal digits denotes. */
  function DecimalValue(ds: string): nat
    requires AllDigits(ds)
    decreases |ds|
  {
    if ds == [] then 0 else DecimalValue(ds[..|ds| - 1]) * 10 + DigitValue(ds[|ds| - 1])
  }

  /** String#lstrip: leading whitespace removed. */
  function LStrip(s: string): (t: string)
    ensures t == [] || !IsSpace(t[0])
    ensures |t| <= |s| && t == s[|s| - |t|..]
    decreases |s|
  {
    if s != [] && IsSpace(s[0]) then LStrip(s[1..]) else s
  }

  /** The digits String#to_i reads after the optional sign: a maximal run of digits in
      which a single underscore may stand between two digits; underscores are dropped. */
  function LeadingDigits(t: string): (ds: string)
    ensures AllDigits(ds)
  {
    if t != [] && IsDigit(t[0]) then [t[0]] + DigitsAfterDigit(t[1..]) else []
  }

  function DigitsAfterDigit(t: string): (ds: string)
    ensures AllDigits(ds)
    decreases |t|
  {
    if t != [] && IsDigit(t[0]) then [t[0]] + DigitsAfterDigit(t[1..])
    else if |t| >= 2 && t[0] == '_' && IsDigit(t[1]) then [t[1]] + DigitsAfterDigit(t[2..])
    else []
  }

  /** String#to_i in base 10: leading whitespace, an optional sign, then digits;
      anything else ends the number, and a string without digits gives 0. */
  function StringToI(s: string): int {
    var t := LStrip(s);
    if t != [] && t[0] == '-' then -(DecimalValue(LeadingDigits(t[1..])) as int)
    else if t != [] && t[0] == '+' then DecimalValue(LeadingDigits(t[1..]))
    else DecimalValue(LeadingDigits(t))
  }

  lemma {:induction false} DigitsAfterDigitWhole(ds: string)
    requires AllDigits(ds)
    ensures DigitsAfterDigit(ds) == ds
    decreases |ds|
  {
    if ds != [] {
      DigitsAfterDigitWhole(ds[1..]);
    }
  }

  /** A string made only of digits is read in full. */
  lemma LeadingDigitsWhole(ds: string)
    requires AllDigits(ds)
    ensures LeadingDigits(ds) == ds
  {
    if ds != [] {
      DigitsAfterDigitWhole(ds[1..]);
    }
  }

  lemma {:induction false} DecimalValueOfNatToString(n: nat)
    ensures DecimalValue(NatToString(n)) == n
    decreases n
  {
    var s := NatToString(n);
    if n < 10 {
      assert s[..|s| - 1] == [];
    } else {
      DecimalValueOfNatToString(n / 10);
      assert s[..|s| - 1] == NatToString(n / 10);
    }
  }

  /** String#to_i of a non-empty digit string is the number it denotes. */
  lemma StringToIOfDigits(ds: string)
    requires ds != [] && AllDigits(ds)
    ensures StringToI(ds) == DecimalValue(ds)
  {
    assert LStrip(ds) == ds;
    LeadingDigitsWhole(ds);
  }

  /** String#to_i reads back what Integer#to_s writes. */
  lemma StringToIOfIntToString(i: int)
    ensures StringToI(IntToString(i)) == i
  {
    if i < 0 {
      var s := IntToString(i);
      assert LStrip(s) == s;
      assert s[1..] == NatToString(-i);
      LeadingDigitsWhole(NatToString(-i));
      DecimalValueOfNatToString(-i);
    } else {
      StringToIOfDigits(NatToString(i));
      DecimalValueOfNatToString(i);
    }
  }

  // ---------------------------------------------------------------------------
  // Array#join, String#split, String#strip

  /** Array#join of strings. */
  function Join(parts: seq<string>, sep: string): string
    decreases |parts|
  {
    if parts == [] then ""
    else if |parts| == 1 then parts[0]
    else parts[0] + sep + Join(parts[1..], sep)
  }

  /** The fields of `s` between occurrences of `c`, empty fields included. */
  function Fields(s: string, c: char): (r: seq<string>)
    ensures |r| >= 1
    decreases |s|
  {
    if s == [] then [""]
    else
      var rest := Fields(s[1..], c);
      if s[0] == c then [""] + rest else [[s[0]] + rest[0]] + rest[1..]
  }

  /** Joining the fields with the separator gives the string back. */
  lemma {:induction false} JoinFields(s: string, c: char)
    ensures Join(Fields(s, c), [c]) == s
    decreases |s|
  {
    if s != [] {
      var rest := Fields(s[1..], c);
      JoinFields(s[1..], c);
      if s[0] != c && |rest| > 1 {
        assert Join(rest, [c]) == rest[0] + [c] + Join(rest[1..], [c]);
      }
    }
  }

  /** Every character of a field is a character of the string other than the separator. */
  lemma {:induction false} FieldChars(s: string, c: char)
    ensures forall j, x :: 0 <= j < |Fields(s, c)| && x in Fields(s, c)[j] ==> x in s && x != c
    decreases |s|
  {
    if s != [] {
      var rest := Fields(s[1..], c);
      FieldChars(s[1..], c);
      assert s == [s[0]] + s[1..];
      forall j, x | 0 <= j < |Fields(s, c)| && x in Fields(s, c)[j]
        ensures x in s && x != c
      {
        if s[0] == c {
          assert Fields(s, c)[j] == if j == 0 then "" else rest[j - 1];
        } else if j == 0 {
          assert Fields(s, c)[0] == [s[0]] + rest[0];
        } else {
          assert Fields(s, c)[j] == rest[j];
        }
      }
    }
  }

  /** The last field is empty exactly when the string is empty or ends with the separator. */
  lemma {:induction false} LastField(s: string, c: char)
    ensures var r := Fields(s, c); r[|r| - 1] == "" <==> s == [] || s[|s| - 1] == c
    decreases |s|
  {
    if s != [] {
      LastField(s[1..], c);
    }
  }

  function DropTrailingEmpty(xs: seq<string>): (r: seq<string>)
    ensures r == [] || r[|r| - 1] != ""
    ensures |r| <= |xs| && r == xs[..|r|]
    decreases |xs|
  {
    if xs != [] && xs[|xs| - 1] == "" then DropTrailingEmpty(xs[..|xs| - 1]) else xs
  }

  /** String#split with a one-character separator: the fields, trailing empty ones dropped. */
  function Split(s: string, c: char): seq<string> {
    DropTrailingEmpty(Fields(s, c))
  }

  /** String#rstrip: trailing whitespace and NUL characters removed. */
  function RStrip(s: string): (t: string)
    ensures |t| <= |s| && t == s[..|t|]
    decreases |s|
  {
    if s != [] && (IsSpace(s[|s| - 1]) || s[|s| - 1] == '\0') then RStrip(s[..|s| - 1]) else s
  }

  /** String#strip. */
  function Strip(s: string): string {
    RStrip(LStrip(s))
  }

  /** `map(&:strip)` over an array of strings. */
  function StripEach(xs: seq<string>): (r: seq<string>)
    ensures |r| == |xs|
  {
    seq(|xs|, i requires 0 <= i < |xs| => Strip(xs[i]))
  }

  /** A string without whitespace or NUL is unchanged by strip. */
  lemma StripClean(f: string)
    requires forall x :: x in f ==> !IsSpace(x) && x != '\0'
    ensures Strip(f) == f
  {
    assert f == [] || f[0] in f;
    assert LStrip(f) == f;
    assert f == [] || f[|f| - 1] in f;
  }

  /** Strings without whitespace or NUL are unchanged by map(&:strip). */
  lemma StripEachClean(fs: seq<string>, s: string)
    requires forall j, x :: 0 <= j < |fs| && x in fs[j] ==> x in s
    requires forall x :: x in s ==> !IsSpace(x) && x != '\0'
    ensures StripEach(fs) == fs
  {
    forall j | 0 <= j < |fs|
      ensures Strip(fs[j]) == fs[j]
    {
      StripClean(fs[j]);
    }
  }

  /** A list without whitespace that does not end with the separator is unchanged by
      split, strip and join. */
  lemma SplitStripJoinClean(s: string, c: char)
    requires forall x :: x in s ==> !IsSpace(x) && x != '\0'
    requires s == [] || s[|s| - 1] != c
    ensures Join(StripEach(Split(s, c)), [c]) == s
  {
    JoinFields(s, c);
    if s != [] {
      var fs := Fields(s, c);
      LastField(s, c);
      assert Split(s, c) == fs;
      FieldChars(s, c);
      StripEachClean(fs, s);
    }
  }

  // ---------------------------------------------------------------------------
  // URI.escape

  /** The characters URI.escape leaves alone: those RFC 2396 calls unreserved or reserved. */
  predicate IsUriSafe(c: char) {
    IsAsciiLetter(c) || IsDigit(c) || c in "-_.!~*'();/?:@&=+$,[]"
  }

  function HexDigit(d: int): (c: char)
    requires 0 <= d < 16
    ensures IsUriSafe(c)
  {
    if d < 10 then DigitChar(d) else ('A' as int + d - 10) as char
  }

  /** The UTF-8 encoding of one character. */
  function Utf8Bytes(c: char): (bs: seq<int>)
    ensures 1 <= |bs| <= 4 && forall i :: 0 <= i < |bs| ==> 0 <= bs[i] < 256
  {
    var n := c as int;
    if n < 0x80 then [n]
    else if n < 0x800 then [0xC0 + n / 64, 0x80 + n % 64]
    else if n < 0x10000 then [0xE0 + n / 4096, 0x80 + (n / 64) % 64, 0x80 + n % 64]
    else [0xF0 + n / 262144, 0x80 + (n / 4096) % 64, 0x80 + (n / 64) % 64, 0x80 + n % 64]
  }

  /** `%XX` with upper-case hex digits for every byte. */
  function PercentEncode(bs: seq<int>): (s: string)
    requires forall i :: 0 <= i < |bs| ==> 0 <= bs[i] < 256
    ensures |s| == 3 * |bs|
    ensures forall i :: 0 <= i < |s| ==> IsUriSafe(s[i]) || s[i] == '%'
    decreases |bs|
  {
    if bs == [] then ""
    else ['%', HexDigit(bs[0] / 16), HexDigit(bs[0] % 16)] + PercentEncode(bs[1..])
  }

  function EscapeChar(c: char): string {
    if IsUriSafe(c) then [c] else PercentEncode(Utf8Bytes(c))
  }

  /** URI.escape: every character outside the safe set becomes the percent-encoding
      of its UTF-8 bytes. */
  function Escape(s: string): (r: string)
    ensures forall i :: 0 <= i < |r| ==> IsUriSafe(r[i]) || r[i] == '%'
    decreases |s|
  {
    if s == [] then "" else EscapeChar(s[0]) + Escape(s[1..])
  }

  /** A string of safe characters is not changed by escaping. */
  lemma {:induction false} EscapeKeepsSafe(s: string)
    requires forall i :: 0 <= i < |s| ==> IsUriSafe(s[i])
    ensures Escape(s) == s
    decreases |s|
  {
    if s != [] {
      EscapeKeepsSafe(s[1..]);
    }
  }
}
