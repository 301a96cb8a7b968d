/**
 * The JavaScript values the builders receive, and the three JavaScript rules
 * that decide what ends up in the query text: truthiness (which optional
 * clauses are emitted), default parameters (which replace `undefined` only),
 * and the string conversion a template literal applies to `${v}`.
 */
module Js {
  import opened Wrappers
  import opened Strings

  /**
   * A parameter value. `Int` stands for a JavaScript number with an integer
   * value (the only numbers the callers pass: limits, precisions, tile
   * coordinates, srids).
   */
  datatype Value = Undefined | Null | Bool(b: bool) | Int(i: int) | Str(s: string)

  /** What the source throws. */
  datatype Error =
    | TypeError(cause: Cause)    // raised by the JavaScript runtime
    | Thrown(message: string)    // `throw new Error(message)`

  /** The operation the runtime could not perform when it raised a TypeError. */
  datatype Cause =
    | MatchFailed                // indexing the `null` that a failed `match` returns
    | NotAString(name: string)   // calling a string method on a value that is not a string
    | MissingFirstRow            // reading a field of `rows[0]` when `rows` is empty

  /** JavaScript's ToBoolean: `undefined`, `null`, `false`, `0` and `''` are falsy. */
  predicate Truthy(v: Value) {
    match v
    case Undefined => false
    case Null => false
    case Bool(b) => b
    case Int(i) => i != 0
    case Str(s) => s != ""
  }

  /** A default parameter `p = d`: only `undefined` is replaced, `null` is kept. */
  function Default(v: Value, d: Value): Value {
    if v.Undefined? then d else v
  }

  lemma DefaultReplacesOnlyUndefined(v: Value, d: Value)
    ensures Default(v, d) == d <==> v.Undefined? || v == d
    ensures Default(Null, d) == Null
    ensures !Truthy(Default(Null, d)) && Truthy(Default(Undefined, d)) == Truthy(d)
  {
  }

  /** The text `${v}` produces in a template literal (ToString). */
  function Text(v: Value): string {
    match v
    case Undefined => "undefined"
    case Null => "null"
    case Bool(b) => if b then "true" else "false"
    case Int(i) => IntToString(i)
    case Str(s) => s
  }

  function DigitChar(d: nat): (c: char)
    requires d < 10
    ensures IsDigit(c) && c as int - '0' as int == d
  {
    "0123456789"[d]
  }

  /** Decimal digits of `n`, most significant first, without leading zeros. */
  function NatToString(n: nat): (s: string)
    ensures |s| >= 1 && AllDigits(s)
    ensures s[0] == '0' ==> n == 0 && s == "0"
  {
    if n < 10 then [DigitChar(n)] else NatToString(n / 10) + [DigitChar(n % 10)]
  }

  /** `String(n)` for an integer-valued number. */
  function IntToString(n: int): (s: string)
    ensures |s| >= 1 && (s[0] == '-' || IsDigit(s[0]))
    ensures s[0] == '-' <==> n < 0
  {
    if n < 0 then "-" + NatToString(-n) else NatToString(n)
  }

  /** The number a string of decimal digits denotes. */
  function DigitsValue(s: string): nat
    requires AllDigits(s)
  {
    if s == [] then 0 else DigitsValue(s[..|s| - 1]) * 10 + (s[|s| - 1] as int - '0' as int)
  }

  lemma {:induction false} DigitsValueOfNatToString(n: nat)
    ensures DigitsValue(NatToString(n)) == n
  {
    if n >= 10 {
      var s := NatToString(n);
      assert s[..|s| - 1] == NatToString(n / 10);
      DigitsValueOfNatToString(n / 10);
    }
  }

  /** The characters ECMAScript's StrWhiteSpaceChar admits: WhiteSpace and LineTerminator. */
  predicate IsJsWhitespace(c: char) {
    c in {'\U{0009}', '\U{000B}', '\U{000C}', '\U{0020}', '\U{00A0}', '\U{FEFF}', '\U{1680}',
          '\U{2000}', '\U{2001}', '\U{2002}', '\U{2003}', '\U{2004}', '\U{2005}', '\U{2006}',
          '\U{2007}', '\U{2008}', '\U{2009}', '\U{200A}', '\U{202F}', '\U{205F}', '\U{3000}',
          '\U{000A}', '\U{000D}', '\U{2028}', '\U{2029}'}
  }

  lemma DigitNotWhitespace(c: char)
    requires IsDigit(c)
    ensures !IsJsWhitespace(c)
  {
  }

  function TrimStart(s: string): (t: string)
    ensures t == [] || !IsJsWhitespace(t[0])
    ensures (s == [] || !IsJsWhitespace(s[0])) ==> t == s
    ensures |t| <= |s| && t == s[|s| - |t|..]
  {
    if s != [] && IsJsWhitespace(s[0]) then
      var t := TrimStart(s[1..]);
      assert s[1..][|s[1..]| - |t|..] == s[|s| - |t|..];
      t
    else s
  }

  /** The longest prefix of `s` made of decimal digits. */
  function DigitPrefix(s: string): (d: string)
    ensures d <= s && AllDigits(d)
    ensures |d| < |s| ==> !IsDigit(s[|d|])
  {
    if s != [] && IsDigit(s[0]) then [s[0]] + DigitPrefix(s[1..]) else []
  }

  lemma {:induction false} DigitPrefixOfDigits(s: string)
    requires AllDigits(s)
    ensures DigitPrefix(s) == s
  {
    if s != [] {
      DigitPrefixOfDigits(s[1..]);
    }
  }

  /**
   * `parseInt(s, 10)`: leading white space is skipped, one sign is read, then
   * the longest run of digits; `None` stands for NaN (no digit at all).
   */
  function ParseInt(s: string): (r: Option<int>)
    ensures r.None? <==> DigitPrefix(Unsigned(TrimStart(s))) == []
  {
    var t := TrimStart(s);
    var d := DigitPrefix(Unsigned(t));
    var magnitude: int := if d == [] then 0 else DigitsValue(d);
    if d == [] then None
    else if |t| > 0 && t[0] == '-' then Some(-magnitude)
    else Some(magnitude)
  }

  /** The text after one leading sign character, if there is one. */
  function Unsigned(t: string): string {
    if |t| > 0 && (t[0] == '-' || t[0] == '+') then t[1..] else t
  }

  /** `parseInt(String(n), 10)` gives `n` back: printing and parsing are inverse. */
  lemma ParseIntOfIntToString(n: int)
    ensures ParseInt(IntToString(n)) == Some(n)
  {
    var s := IntToString(n);
    assert !IsJsWhitespace(s[0]) by {
      if s[0] != '-' {
        DigitNotWhitespace(s[0]);
      }
    }
    assert TrimStart(s) == s;
    var m: nat := if n < 0 then -n else n;
    assert Unsigned(s) == NatToString(m);
    DigitPrefixOfDigits(NatToString(m));
    DigitsValueOfNatToString(m);
  }
}
