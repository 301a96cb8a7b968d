/**
 * `Number(token)` followed by `String(...)`, which is what
 * `bounds.split(',').map(Number)` and the later `.join()` do to each bounds
 * token. ECMAScript's StringToNumber grammar is followed exactly for which
 * tokens are numbers at all (white space around the token, an optional sign,
 * `Infinity`, decimal literals with fraction and exponent, `0x`/`0o`/`0b`
 * integers without a sign, the empty token as zero); integer values are
 * printed exactly, and decimal literals with a fraction or an exponent keep
 * their written digits (see README).
 */
module Numerals {
  import opened Strings
  import opened Js

  function TrimEnd(s: string): (t: string)
    ensures t <= s
    ensures t == [] || !IsJsWhitespace(t[|t| - 1])
    ensures forall i :: |t| <= i < |s| ==> IsJsWhitespace(s[i])
  {
    if s != [] && IsJsWhitespace(s[|s| - 1]) then TrimEnd(s[..|s| - 1]) else s
  }

  /** `String.prototype.trim` with ECMAScript's white space and line terminators. */
  function Trim(s: string): string {
    TrimEnd(TrimStart(s))
  }

  /** What StringToNumber makes of a trimmed token, before it is printed. */
  datatype Literal =
    | Integer(value: int)          // an integer value
    | Infinite(negative: bool)     // `Infinity`, `+Infinity`, `-Infinity`
    | Fraction(written: string)    // a decimal literal with a fraction or an exponent
    | NotANumber                   // anything the grammar rejects

  predicate IsHexDigit(c: char) {
    IsDigit(c) || 'a' <= c <= 'f' || 'A' <= c <= 'F'
  }

  function HexDigitValue(c: char): (d: nat)
    requires IsHexDigit(c)
    ensures d < 16
  {
    if IsDigit(c) then c as int - '0' as int
    else if 'a' <= c <= 'f' then c as int - 'a' as int + 10
    else c as int - 'A' as int + 10
  }

  /** The base a `0x`, `0o` or `0b` prefix announces. */
  function Radix(c: char): (r: nat)
    ensures r == 0 || r == 2 || r == 8 || r == 16
  {
    if c == 'x' || c == 'X' then 16
    else if c == 'o' || c == 'O' then 8
    else if c == 'b' || c == 'B' then 2
    else 0
  }

  predicate AllDigitsIn(s: string, base: nat) {
    forall i :: 0 <= i < |s| ==> IsHexDigit(s[i]) && HexDigitValue(s[i]) < base
  }

  function RadixValue(s: string, base: nat): nat
    requires AllDigitsIn(s, base)
  {
    if s == [] then 0
    else
      DigitsInPrefix(s, base);
      Shift(RadixValue(s[..|s| - 1], base), base, HexDigitValue(s[|s| - 1]))
  }

  /** One more digit `d` after the value `v`, in base `base`. */
  function Shift(v: nat, base: nat, d: nat): nat {
    v * base + d
  }

  lemma DigitsInPrefix(s: string, base: nat)
    requires AllDigitsIn(s, base) && s != []
    ensures AllDigitsIn(s[..|s| - 1], base) && IsHexDigit(s[|s| - 1])
  {
    var p := s[..|s| - 1];
    forall i | 0 <= i < |p|
      ensures IsHexDigit(p[i]) && HexDigitValue(p[i]) < base
    {
      assert p[i] == s[i];
    }
  }

  /** `0x1F`, `0o17`, `0b101`: a prefix and at least one digit of that base. */
  predicate IsNonDecimal(t: string) {
    |t| > 2 && t[0] == '0' && Radix(t[1]) != 0 && AllDigitsIn(t[2..], Radix(t[1]))
  }

  /** `12`, `12.`, `12.5`, `.5`: digits with at most one point and a digit somewhere. */
  predicate IsMantissa(m: string) {
    (|m| >= 1 && AllDigits(m)) ||
    exists k :: 0 <= k < |m| && |m| >= 2 && m[k] == '.' && AllDigits(m[..k]) && AllDigits(m[k + 1..])
  }

  /** `e5`, `E+5`, `e-05`. */
  predicate IsExponent(e: string) {
    |e| >= 2 && (e[0] == 'e' || e[0] == 'E') && Unsigned(e[1..]) != [] && AllDigits(Unsigned(e[1..]))
  }

  /** StrUnsignedDecimalLiteral without `Infinity`. */
  predicate IsDecimal(u: string) {
    IsMantissa(u) || exists k :: 0 < k < |u| && IsMantissa(u[..k]) && IsExponent(u[k..])
  }

  /** StringToNumber on a token with the surrounding white space removed. */
  function Scan(t: string): Literal {
    if t == [] then Integer(0)
    else if IsNonDecimal(t) then Integer(RadixValue(t[2..], Radix(t[1])))
    else
      var negative := t[0] == '-';
      var u := Unsigned(t);
      var magnitude: int := if u != [] && AllDigits(u) then DigitsValue(u) else 0;
      if u == "Infinity" then Infinite(negative)
      else if u != [] && AllDigits(u) then Integer(if negative then -magnitude else magnitude)
      else if IsDecimal(u) then Fraction(if negative then "-" + u else u)
      else NotANumber
  }

  /** Number::toString of the scanned value. */
  function LiteralText(l: Literal): string {
    match l
    case Integer(v) => IntToString(v)
    case Infinite(negative) => if negative then "-Infinity" else "Infinity"
    case Fraction(written) => written
    case NotANumber => "NaN"
  }

  /** `String(Number(token))`. */
  function Numeral(token: string): string {
    LiteralText(Scan(Trim(token)))
  }

  /** A character a printed number can contain. */
  predicate IsNumeralChar(c: char) {
    IsDecimalChar(c) || c == 'I' || c == 'n' || c == 'f' || c == 'i' || c == 't' || c == 'y' || c == 'N' || c == 'a'
  }

  predicate IsNumeralText(s: string) {
    forall i :: 0 <= i < |s| ==> IsNumeralChar(s[i])
  }

  /** A character of a decimal literal: a digit, the point, the exponent mark or a sign. */
  predicate IsDecimalChar(c: char) {
    IsDigit(c) || c == '.' || c == 'e' || c == 'E' || c == '+' || c == '-'
  }

  predicate IsDecimalText(s: string) {
    forall i :: 0 <= i < |s| ==> IsDecimalChar(s[i])
  }

  /** A character other than white space that a token StringToNumber accepts can contain. */
  predicate IsLiteralChar(c: char) {
    IsDecimalChar(c) || IsHexDigit(c) || c == 'x' || c == 'X' || c == 'o' || c == 'O' ||
    c == 'I' || c == 'n' || c == 'i' || c == 't' || c == 'y'
  }

  lemma MantissaChars(m: string)
    requires IsMantissa(m)
    ensures IsDecimalText(m)
  {
    if !(|m| >= 1 && AllDigits(m)) {
      var k :| 0 <= k < |m| && |m| >= 2 && m[k] == '.' && AllDigits(m[..k]) && AllDigits(m[k + 1..]);
      forall i | 0 <= i < |m|
        ensures IsDecimalChar(m[i])
      {
        if i < k {
          assert m[i] == m[..k][i];
        } else if i > k {
          assert m[i] == m[k + 1..][i - k - 1];
        }
      }
    }
  }

  lemma ExponentChars(e: string)
    requires IsExponent(e)
    ensures IsDecimalText(e)
  {
    var d := Unsigned(e[1..]);
    var off := |e| - |d|;
    assert off == 1 || off == 2;
    assert d == e[off..];
    forall i | 0 <= i < |e|
      ensures IsDecimalChar(e[i])
    {
      if i >= off {
        assert e[i] == d[i - off];
      }
    }
  }

  lemma DecimalChars(u: string)
    requires IsDecimal(u)
    ensures IsDecimalText(u)
  {
    if IsMantissa(u) {
      MantissaChars(u);
    } else {
      var k :| 0 < k < |u| && IsMantissa(u[..k]) && IsExponent(u[k..]);
      MantissaChars(u[..k]);
      ExponentChars(u[k..]);
      forall i | 0 <= i < |u|
        ensures IsDecimalChar(u[i])
      {
        if i < k {
          assert u[i] == u[..k][i];
        } else {
          assert u[i] == u[k..][i - k];
        }
      }
    }
  }

  lemma SignedChars(negative: bool, s: string)
    requires IsDecimalText(s)
    ensures IsDecimalText(if negative then "-" + s else s)
  {
    if negative {
      var t := "-" + s;
      forall i | 0 <= i < |t|
        ensures IsDecimalChar(t[i])
      {
        if i > 0 {
          assert t[i] == s[i - 1];
        }
      }
    }
  }

  lemma InfinityChars()
    ensures IsNumeralText("-Infinity") && IsNumeralText("Infinity") && IsNumeralText("NaN")
  {
    var s := "-Infinity";
    forall i | 0 <= i < |s|
      ensures IsNumeralChar(s[i])
    {
      assert i == 0 || i == 1 || i == 2 || i == 3 || i == 4 || i == 5 || i == 6 || i == 7 || i == 8;
    }
    assert "Infinity" == s[1..];
  }

  /**
   * Whatever the token, its printed number is made of digits, `.`, `e`, `E`,
   * signs and the letters of `Infinity` and `NaN`: no quote, parenthesis,
   * comma, semicolon or white space from a bounds string reaches the query.
   */
  lemma NumeralAlphabet(token: string)
    ensures IsNumeralText(Numeral(token))
  {
    var t := Trim(token);
    match Scan(t)
    case Integer(v) =>
      IntegerChars(v);
      DecimalIsNumeral(IntToString(v));
    case Infinite(negative) =>
      InfinityChars();
    case Fraction(written) =>
      FractionChars(t);
      DecimalIsNumeral(written);
    case NotANumber =>
      InfinityChars();
  }

  lemma IntegerChars(v: int)
    ensures IsDecimalText(IntToString(v))
  {
    var m: nat := if v < 0 then -v else v;
    assert IsDecimalText(NatToString(m));
    SignedChars(v < 0, NatToString(m));
  }

  lemma FractionChars(t: string)
    requires Scan(t).Fraction?
    ensures IsDecimalText(Scan(t).written)
  {
    DecimalChars(Unsigned(t));
    SignedChars(t[0] == '-', Unsigned(t));
  }

  lemma DecimalIsNumeral(s: string)
    requires IsDecimalText(s)
    ensures IsNumeralText(s)
  {
    forall i | 0 <= i < |s|
      ensures IsNumeralChar(s[i])
    {
      assert IsDecimalChar(s[i]);
    }
  }

  /** Trimming only removes white space: every other character of the token survives it. */
  lemma TrimKeeps(s: string, c: char)
    requires c in s && !IsJsWhitespace(c)
    ensures c in Trim(s)
  {
    var t := TrimStart(s);
    var k := |s| - |t|;
    var j :| 0 <= j < |s| && s[j] == c;
    assert j >= k by {
      if j < k {
        TrimStartDrops(s, j);
      }
    }
    assert t[j - k] == c;
    var e := TrimEnd(t);
    assert j - k < |e|;
    assert e[j - k] == t[j - k];
  }

  lemma {:induction false} TrimStartDrops(s: string, j: nat)
    requires j < |s| - |TrimStart(s)|
    ensures IsJsWhitespace(s[j])
  {
    if j > 0 {
      TrimStartDrops(s[1..], j - 1);
    }
  }

  predicate IsLiteralText(s: string) {
    forall i :: 0 <= i < |s| ==> IsLiteralChar(s[i])
  }

  /** A `0x`, `0o` or `0b` integer is written in hex digits and its prefix letter. */
  lemma NonDecimalChars(t: string)
    requires IsNonDecimal(t)
    ensures IsLiteralText(t)
  {
    forall i | 2 <= i < |t|
      ensures IsLiteralChar(t[i])
    {
      assert t[i] == t[2..][i - 2];
    }
  }

  lemma InfinityLiteral()
    ensures IsLiteralText("Infinity")
  {
    var u := "Infinity";
    forall i | 0 <= i < |u|
      ensures IsLiteralChar(u[i])
    {
      assert i == 0 || i == 1 || i == 2 || i == 3 || i == 4 || i == 5 || i == 6 || i == 7;
    }
  }

  /** A sign in front of literal characters keeps them literal. */
  lemma SignedLiteral(t: string)
    requires IsLiteralText(Unsigned(t))
    ensures IsLiteralText(t)
  {
    var u := Unsigned(t);
    var off := |t| - |u|;
    assert u == t[off..];
    forall i | off <= i < |t|
      ensures IsLiteralChar(t[i])
    {
      assert t[i] == u[i - off];
    }
  }

  /** A token StringToNumber accepts is written in literal characters only. */
  lemma ScannedText(t: string)
    requires !Scan(t).NotANumber?
    ensures IsLiteralText(t)
  {
    if t != [] {
      if IsNonDecimal(t) {
        NonDecimalChars(t);
      } else {
        var u := Unsigned(t);
        if u == "Infinity" {
          InfinityLiteral();
        } else if !(u != [] && AllDigits(u)) {
          DecimalChars(u);
        }
        assert IsLiteralText(u);
        SignedLiteral(t);
      }
    }
  }

  /** An accepted token other than `Infinity` is written in decimal characters or hex digits. */
  lemma ScannedChars(t: string, c: char)
    requires c in t && !Scan(t).NotANumber?
    ensures IsLiteralChar(c)
  {
    ScannedText(t);
  }

  /**
   * A token holding any character that is neither white space nor part of a
   * numeric literal (a quote, a parenthesis, a comma, a semicolon, a letter
   * such as `z`) becomes `NaN`.
   */
  lemma NumeralOfForeign(token: string, c: char)
    requires c in token && !IsJsWhitespace(c) && !IsLiteralChar(c)
    ensures Numeral(token) == "NaN"
  {
    TrimKeeps(token, c);
    if !Scan(Trim(token)).NotANumber? {
      ScannedChars(Trim(token), c);
    }
  }

  /** A canonically printed integer is a fixed point: `String(Number(String(n))) == String(n)`. */
  lemma NumeralOfInteger(n: int)
    ensures Numeral(IntToString(n)) == IntToString(n)
  {
    IntegerTrimmed(n);
    IntegerScanned(n);
  }

  /** A printed integer has no white space around it. */
  lemma IntegerTrimmed(n: int)
    ensures Trim(IntToString(n)) == IntToString(n)
  {
    var s := IntToString(n);
    var m: nat := if n < 0 then -n else n;
    var d := NatToString(m);
    assert !IsJsWhitespace(s[0]) by {
      if s[0] != '-' {
        DigitNotWhitespace(s[0]);
      }
    }
    assert TrimStart(s) == s;
    assert s[|s| - 1] == d[|d| - 1];
    DigitNotWhitespace(s[|s| - 1]);
  }

  /** StringToNumber reads a printed integer as that integer. */
  lemma IntegerScanned(n: int)
    ensures Scan(IntToString(n)) == Integer(n)
  {
    var s := IntToString(n);
    var m: nat := if n < 0 then -n else n;
    assert Unsigned(s) == NatToString(m);
    assert !IsNonDecimal(s) by {
      if n >= 0 {
        assert s == NatToString(m);
      }
    }
    DigitsValueOfNatToString(m);
  }
}
