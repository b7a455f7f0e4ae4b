/**
 * The java.lang.String, Character, Integer and Boolean behaviour the analyzer
 * relies on: blank checks, ASCII case mapping, decimal integers and String.split.
 */
module Text {
  import opened Wrappers

  /** The UTF-8 byte order mark as a decoded character. */
  const Bom: char := '\U{FEFF}'

  /** Character.isWhitespace: the space, line and paragraph separators except the no-break spaces, and the ASCII controls it names. */
  predicate IsWhitespace(c: char) {
    || c == ' ' || c == '\t' || c == '\n' || c == '\r'
    || c == '\U{000B}' || c == '\U{000C}'
    || ('\U{001C}' <= c <= '\U{001F}')
    || c == '\U{1680}'
    || ('\U{2000}' <= c <= '\U{2006}') || ('\U{2008}' <= c <= '\U{200A}')
    || c == '\U{2028}' || c == '\U{2029}' || c == '\U{205F}' || c == '\U{3000}'
  }

  /** String.isBlank: empty or whitespace only. */
  predicate IsBlank(s: string) {
    forall i :: 0 <= i < |s| ==> IsWhitespace(s[i])
  }

  /** A String reference that is null or blank. */
  predicate NullOrBlank(s: Option<string>) {
    s.None? || IsBlank(s.value)
  }

  predicate IsUpperAscii(c: char) { 'A' <= c <= 'Z' }
  predicate IsLowerAscii(c: char) { 'a' <= c <= 'z' }
  predicate IsDigit(c: char) { '0' <= c <= '9' }
  predicate IsAsciiLetterOrDigit(c: char) { IsUpperAscii(c) || IsLowerAscii(c) || IsDigit(c) }

  /** Character.toLowerCase restricted to ASCII letters. */
  function LowerChar(c: char): char {
    if IsUpperAscii(c) then (c as int + 32) as char else c
  }

  /** Character.toUpperCase restricted to ASCII letters. */
  function UpperChar(c: char): char {
    if IsLowerAscii(c) then (c as int - 32) as char else c
  }

  /** String.toLowerCase restricted to ASCII letters. */
  function ToLower(s: string): string {
    seq(|s|, i requires 0 <= i < |s| => LowerChar(s[i]))
  }

  /** Boolean.parseBoolean: true exactly for "true" in any letter case. */
  predicate ParseBoolean(s: Option<string>) {
    s.Some? && ToLower(s.value) == "true"
  }

  // ---------------------------------------------------------------- integers

  const IntMin: int := -0x8000_0000
  const IntMax: int := 0x7FFF_FFFF

  predicate AllDigits(s: string) {
    forall i :: 0 <= i < |s| ==> IsDigit(s[i])
  }

  function DigitValue(c: char): nat
    requires IsDigit(c)
  {
    c as int - '0' as int
  }

  function DigitsValue(s: string): nat
    requires AllDigits(s)
    decreases |s|
  {
    if s == [] then 0 else 10 * DigitsValue(s[..|s| - 1]) + DigitValue(s[|s| - 1])
  }

  /**
   * Integer.parseInt in radix 10: an optional '+' or '-', at least one
   * digit, and a value that fits in 32 bits. None stands for the
   * NumberFormatException thrown otherwise.
   */
  function ParseInt(s: string): Option<int> {
    var negative := |s| > 0 && s[0] == '-';
    var digits := if |s| > 0 && (s[0] == '-' || s[0] == '+') then s[1..] else s;
    if digits == [] || !AllDigits(digits) then None
    else
      var magnitude: int := DigitsValue(digits);
      var v := if negative then -magnitude else magnitude;
      if IntMin <= v <= IntMax then Some(v) else None
  }

  function DigitChar(d: nat): char
    requires d < 10
  {
    ('0' as int + d) as char
  }

  /** Integer.toString for a non-negative value. */
  function NatToString(n: nat): string
    decreases n
  {
    if n < 10 then [DigitChar(n)] else NatToString(n / 10) + [DigitChar(n % 10)]
  }

  /** The decimal text of n is a non-empty digit string denoting n. */
  lemma {:induction false} NatToStringDenotes(n: nat)
    ensures |NatToString(n)| > 0 && AllDigits(NatToString(n))
    ensures DigitsValue(NatToString(n)) == n
  {
    if n >= 10 {
      NatToStringDenotes(n / 10);
      var s := NatToString(n);
      assert s[..|s| - 1] == NatToString(n / 10);
    }
  }

  /** Integer.parseInt reads back what Integer.toString wrote. */
  lemma ParseIntOfNatToString(n: nat)
    requires n <= IntMax
    ensures ParseInt(NatToString(n)) == Some(n)
  {
    NatToStringDenotes(n);
  }

  /** Distinct numbers have distinct decimal texts. */
  lemma NatToStringInjective(a: nat, b: nat)
    requires NatToString(a) == NatToString(b)
    ensures a == b
  {
    NatToStringDenotes(a);
    NatToStringDenotes(b);
  }

  /** The message of the StringIndexOutOfBoundsException String.charAt(0) throws on an empty string. */
  const EmptyStringCharAtMessage := "String index out of range: 0"

  // ---------------------------------------------------------------- String.split

  /** The single characters '_' and the regex class [_\s] that the generators split on. */
  predicate IsUnderscore(c: char) { c == '_' }
  predicate IsUnderscoreOrRegexSpace(c: char) {
    c == '_' || c == ' ' || c == '\t' || c == '\n' || c == '\U{000B}' || c == '\U{000C}' || c == '\r'
  }

  predicate HasSeparator(s: string, sep: char -> bool) {
    exists i :: 0 <= i < |s| && sep(s[i])
  }

  /** The pieces of s between separator characters, empty pieces included. */
  function Pieces(s: string, sep: char -> bool): (r: seq<string>)
    ensures |r| >= 1
    decreases |s|
  {
    if s == [] then [""]
    else
      var rest := Pieces(s[1..], sep);
      if sep(s[0]) then [""] + rest else [[s[0]] + rest[0]] + rest[1..]
  }

  lemma {:induction false} PiecesHaveNoSeparator(s: string, sep: char -> bool)
    ensures forall k :: 0 <= k < |Pieces(s, sep)| ==> !HasSeparator(Pieces(s, sep)[k], sep)
    decreases |s|
  {
    if s != [] {
      PiecesHaveNoSeparator(s[1..], sep);
      var rest := Pieces(s[1..], sep);
      if !sep(s[0]) {
        forall k | 0 <= k < |Pieces(s, sep)| ensures !HasSeparator(Pieces(s, sep)[k], sep) {
          if k == 0 {
            var p := [s[0]] + rest[0];
            assert !HasSeparator(rest[0], sep);
            forall i | 0 <= i < |p| ensures !sep(p[i]) {
              if i > 0 { assert p[i] == rest[0][i - 1]; }
            }
          } else {
            assert Pieces(s, sep)[k] == rest[k];
          }
        }
      }
    }
  }

  /** Text without a separator is one piece. */
  lemma {:induction false} PiecesWithoutSeparator(s: string, sep: char -> bool)
    requires !HasSeparator(s, sep)
    ensures Pieces(s, sep) == [s]
    decreases |s|
  {
    if s != [] {
      assert !HasSeparator(s[1..], sep) by {
        forall i | 0 <= i < |s[1..]| ensures !sep(s[1..][i]) {
          assert s[1..][i] == s[i + 1];
        }
      }
      PiecesWithoutSeparator(s[1..], sep);
      assert [s[0]] + s[1..] == s;
    }
  }

  /** A separator-free piece followed by a separator is split off in front of the rest. */
  lemma {:induction false} PiecesAfterSeparator(a: string, c: char, b: string, sep: char -> bool)
    requires !HasSeparator(a, sep) && sep(c)
    ensures Pieces(a + [c] + b, sep) == [a] + Pieces(b, sep)
    decreases |a|
  {
    var s := a + [c] + b;
    if a == [] {
      assert s[1..] == b;
    } else {
      assert !HasSeparator(a[1..], sep) by {
        forall i | 0 <= i < |a[1..]| ensures !sep(a[1..][i]) {
          assert a[1..][i] == a[i + 1];
        }
      }
      PiecesAfterSeparator(a[1..], c, b, sep);
      assert s[1..] == a[1..] + [c] + b;
      assert !sep(s[0]) by {
        assert s[0] == a[0];
      }
      assert [a[0]] + a[1..] == a;
    }
  }

  function DropTrailingEmpty(parts: seq<string>): (r: seq<string>)
    ensures |r| <= |parts| && r == parts[..|r|]
    decreases |parts|
  {
    if parts != [] && parts[|parts| - 1] == "" then DropTrailingEmpty(parts[..|parts| - 1]) else parts
  }

  function NonEmpty(parts: seq<string>): (r: seq<string>)
    ensures forall k :: 0 <= k < |r| ==> r[k] != "" && r[k] in parts
    decreases |parts|
  {
    if parts == [] then []
    else (if parts[0] == "" then [] else [parts[0]]) + NonEmpty(parts[1..])
  }

  /** String.split(regex) with limit 0, for a regex matching one separator character. */
  function SplitEach(s: string, sep: char -> bool): seq<string> {
    if !HasSeparator(s, sep) then [s] else DropTrailingEmpty(Pieces(s, sep))
  }

  /** String.split(regex) with limit 0, for a regex matching a run of separator characters. */
  function SplitRuns(s: string, sep: char -> bool): seq<string> {
    if !HasSeparator(s, sep) then [s]
    else
      var p := Pieces(s, sep);
      DropTrailingEmpty([p[0]] + NonEmpty(p[1..]))
  }

  /** Every part String.split returns is free of separators. */
  lemma SplitPartsHaveNoSeparator(s: string, sep: char -> bool)
    ensures forall k :: 0 <= k < |SplitEach(s, sep)| ==> !HasSeparator(SplitEach(s, sep)[k], sep)
    ensures forall k :: 0 <= k < |SplitRuns(s, sep)| ==> !HasSeparator(SplitRuns(s, sep)[k], sep)
  {
    if HasSeparator(s, sep) {
      PiecesHaveNoSeparator(s, sep);
      var p := Pieces(s, sep);
      var q := [p[0]] + NonEmpty(p[1..]);
      forall k | 0 <= k < |q| ensures !HasSeparator(q[k], sep) {
        if k > 0 {
          assert q[k] in p[1..];
        }
      }
    }
  }

  /** String.join with a single separator character. */
  function Join(parts: seq<string>, c: char): string
    decreases |parts|
  {
    if |parts| == 0 then ""
    else if |parts| == 1 then parts[0]
    else parts[0] + [c] + Join(parts[1..], c)
  }

  /** Cutting at every separator undoes joining separator-free parts. */
  lemma {:induction false} PiecesOfJoin(parts: seq<string>, c: char, sep: char -> bool)
    requires |parts| >= 1 && sep(c)
    requires forall k :: 0 <= k < |parts| ==> !HasSeparator(parts[k], sep)
    ensures Pieces(Join(parts, c), sep) == parts
    decreases |parts|
  {
    if |parts| == 1 {
      PiecesWithoutSeparator(parts[0], sep);
    } else {
      PiecesOfJoin(parts[1..], c, sep);
      PiecesAfterSeparator(parts[0], c, Join(parts[1..], c), sep);
    }
  }

  lemma {:induction false} NonEmptyKeepsNonEmpty(parts: seq<string>)
    requires forall k :: 0 <= k < |parts| ==> parts[k] != ""
    ensures NonEmpty(parts) == parts
    decreases |parts|
  {
    if parts != [] {
      NonEmptyKeepsNonEmpty(parts[1..]);
      assert [parts[0]] + parts[1..] == parts;
    }
  }

  /** Both forms of String.split give back the non-empty separator-free parts that were joined. */
  lemma SplitOfJoin(parts: seq<string>, c: char, sep: char -> bool)
    requires |parts| >= 1 && sep(c)
    requires forall k :: 0 <= k < |parts| ==> parts[k] != "" && !HasSeparator(parts[k], sep)
    ensures SplitEach(Join(parts, c), sep) == parts
    ensures SplitRuns(Join(parts, c), sep) == parts
  {
    var s := Join(parts, c);
    if |parts| > 1 {
      assert sep(s[|parts[0]|]);
      PiecesOfJoin(parts, c, sep);
      NonEmptyKeepsNonEmpty(parts[1..]);
      assert [parts[0]] + parts[1..] == parts;
    }
  }
}
