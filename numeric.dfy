/** Conversions from text to numbers as the source's runtimes perform them:
    Python's `int(text)` and `float(text)`, and JavaScript's `parseFloat(text)`,
    each returning `None` where the runtime raises (Python) or yields NaN
    (JavaScript). Numbers are exact (`int`, `real`). */
module Numeric {
  import opened Wrappers
  import opened Text

  /** `10^k`. */
  function Pow10(k: nat): (p: nat)
    ensures p >= 1
  {
    if k == 0 then 1 else 10 * Pow10(k - 1)
  }

  /** The value of `a.b` for decimal digit strings `a` and `b`. */
  function DecimalOf(a: string, b: string): (v: real)
    requires AllDigits(a) && AllDigits(b)
    ensures v >= 0.0
  {
    DigitsValue(a) as real + DigitsValue(b) as real / Pow10(|b|) as real
  }

  /** An unsigned decimal literal as Python's `float` accepts it: digits,
      optionally with one point, and at least one digit in all. */
  function UnsignedDecimal(s: string): (r: Option<real>)
    ensures r.Some? ==> r.value >= 0.0
  {
    var parts := Split(s, '.');
    if |parts| == 1 && parts[0] != [] && AllDigits(parts[0]) then
      Some(DigitsValue(parts[0]) as real)
    else if |parts| == 2 && AllDigits(parts[0]) && AllDigits(parts[1]) && parts[0] + parts[1] != [] then
      Some(DecimalOf(parts[0], parts[1]))
    else None
  }

  /** Splits an optional leading `+` or `-` from `t`: the sign and the rest. */
  function SignOf(t: string): (r: (int, string))
    ensures r.0 == 1 || r.0 == -1
    ensures |r.1| <= |t|
  {
    if t != [] && t[0] == '-' then (-1, t[1..])
    else if t != [] && t[0] == '+' then (1, t[1..])
    else (1, t)
  }

  /** A magnitude with the sign `SignOf` found put in front. */
  function Signed(sign: int, v: int): int {
    if sign < 0 then -v else v
  }

  function SignedReal(sign: int, v: real): real {
    if sign < 0 then -v else v
  }

  /** Python's `int(text)`: surrounding whitespace, an optional sign, then one
      or more decimal digits; anything else raises `ValueError` (here `None`). */
  function PyInt(s: string): (r: Option<int>)
  {
    var (sign, d) := SignOf(Strip(s));
    if d != [] && AllDigits(d) then Some(Signed(sign, DigitsValue(d))) else None
  }

  /** Python's `float(text)`: surrounding whitespace, an optional sign, then a
      decimal literal with an optional point; anything else raises (`None`). */
  function PyFloat(s: string): (r: Option<real>)
  {
    var (sign, d) := SignOf(Strip(s));
    match UnsignedDecimal(d)
    case Some(v) => Some(SignedReal(sign, v))
    case None => None
  }

  /** What `str(i)` prints has no whitespace at either end. */
  lemma IntToStringUnpadded(i: int)
    ensures var s := IntToString(i); !IsSpace(s[0]) && !IsSpace(s[|s| - 1])
    ensures Strip(IntToString(i)) == IntToString(i)
  {
    var s := IntToString(i);
    assert "" + s + "" == s;
    StripPadded("", s, "");
  }

  /** What `str(i)` prints, taken apart: no surrounding whitespace, the sign of
      `i`, then the decimal digits of its magnitude `n`. */
  lemma IntToStringParts(i: int) returns (sign: int, d: string, n: nat)
    ensures Strip(IntToString(i)) == IntToString(i)
    ensures JsTrimStart(IntToString(i)) == IntToString(i)
    ensures SignOf(IntToString(i)) == (sign, d)
    ensures d != [] && AllDigits(d) && DigitsValue(d) == n
    ensures UnsignedDecimal(d) == Some(n as real)
    ensures Signed(sign, n) == i && SignedReal(sign, n as real) == i as real
  {
    IntToStringUnpadded(i);
    IntToStringJsUnpadded(i);
    SignOfIntToString(i);
    sign, n := if i < 0 then -1 else 1, if i < 0 then -i else i;
    d := NatToString(n);
    DigitsValueOfNatToString(n);
    UnsignedDecimalOfNat(n);
  }

  /** Python's `int(str(i)) == i`: the id a message prints is the id read back. */
  lemma PyIntOfIntToString(i: int)
    ensures PyInt(IntToString(i)) == Some(i)
  {
    var sign, d, n := IntToStringParts(i);
    PyIntOfSigned(IntToString(i), sign, d, n);
  }

  lemma PyIntOfSigned(s: string, sign: int, d: string, n: nat)
    requires Strip(s) == s && SignOf(s) == (sign, d)
    requires d != [] && AllDigits(d) && DigitsValue(d) == n
    ensures PyInt(s) == Some(Signed(sign, n))
  {
  }

  /** Python's `float(str(i)) == i`. */
  lemma PyFloatOfIntToString(i: int)
    ensures PyFloat(IntToString(i)) == Some(i as real)
  {
    var sign, d, n := IntToStringParts(i);
    PyFloatOfSigned(IntToString(i), sign, d, n as real);
  }

  lemma PyFloatOfSigned(s: string, sign: int, d: string, v: real)
    requires Strip(s) == s && SignOf(s) == (sign, d)
    requires UnsignedDecimal(d) == Some(v)
    ensures PyFloat(s) == Some(SignedReal(sign, v))
  {
  }

  /** `str(i)` splits into the sign of `i` and the digits of its magnitude. */
  lemma SignOfIntToString(i: int)
    ensures SignOf(IntToString(i)) == (if i < 0 then -1 else 1, NatToString(if i < 0 then -i else i))
  {
    var s := IntToString(i);
    if i < 0 {
      assert s[1..] == NatToString(-i);
    } else {
      assert IsDigit(s[0]);
    }
  }

  lemma UnsignedDecimalOfNat(n: nat)
    ensures UnsignedDecimal(NatToString(n)) == Some(n as real)
  {
    var d := NatToString(n);
    Text.SplitJoin([d], '.');
    assert Split(d, '.') == [d];
    DigitsValueOfNatToString(n);
  }

  /** JavaScript's StrWhiteSpaceChar: white space and line terminators. */
  predicate IsJsSpace(c: char) {
    ('\t' <= c <= '\r') || c == ' ' || c == '\U{a0}' || c == '\U{1680}' || ('\U{2000}' <= c <= '\U{200a}')
    || c == '\U{2028}' || c == '\U{2029}' || c == '\U{202f}' || c == '\U{205f}' || c == '\U{3000}' || c == '\U{feff}'
  }

  /** Drops the leading JavaScript white space of `s`. */
  function JsTrimStart(s: string): (r: string)
    ensures |r| <= |s| && r == s[|s| - |r|..]
    ensures r != [] ==> !IsJsSpace(r[0])
  {
    if s != [] && IsJsSpace(s[0]) then JsTrimStart(s[1..]) else s
  }

  /** The longest prefix of `s` made of decimal digits. */
  function LeadingDigits(s: string): (d: string)
    ensures AllDigits(d) && d <= s
    ensures |d| < |s| ==> !IsDigit(s[|d|])
  {
    if s != [] && IsDigit(s[0]) then [s[0]] + LeadingDigits(s[1..]) else []
  }

  /** JavaScript's `parseFloat(text)`: after leading white space, the longest
      prefix that reads as a signed decimal number; text with no such prefix
      gives NaN (here `None`). */
  function JsParseFloat(s: string): (r: Option<real>)
    ensures r.None? <==> var t := SignOf(JsTrimStart(s)).1;
                         LeadingDigits(t) == [] && (t == [] || t[0] != '.' || LeadingDigits(t[1..]) == [])
  {
    var (sign, t) := SignOf(JsTrimStart(s));
    var a := LeadingDigits(t);
    var rest := t[|a|..];
    var b := if rest != [] && rest[0] == '.' then LeadingDigits(rest[1..]) else [];
    if a == [] && b == [] then None else Some(SignedReal(sign, DecimalOf(a, b)))
  }

  /** `parseFloat(String(i)) == i`. */
  lemma JsParseFloatOfIntToString(i: int)
    ensures JsParseFloat(IntToString(i)) == Some(i as real)
  {
    var sign, d, n := IntToStringParts(i);
    JsParseFloatOfSigned(IntToString(i), sign, d);
  }

  lemma IntToStringJsUnpadded(i: int)
    ensures JsTrimStart(IntToString(i)) == IntToString(i)
  {
    var s := IntToString(i);
    assert !IsJsSpace(s[0]);
  }

  /** A sign followed by digits only reads as the signed value of the digits. */
  lemma JsParseFloatOfSigned(s: string, sign: int, d: string)
    requires JsTrimStart(s) == s && SignOf(s) == (sign, d)
    requires d != [] && AllDigits(d)
    ensures JsParseFloat(s) == Some(SignedReal(sign, DigitsValue(d) as real))
  {
    LeadingDigitsAll(d);
    assert d[|d|..] == [];
    assert DecimalOf(d, []) == DigitsValue(d) as real;
  }

  lemma {:induction false} LeadingDigitsAll(d: string)
    requires AllDigits(d)
    ensures LeadingDigits(d) == d
  {
    if d != [] {
      LeadingDigitsAll(d[1..]);
      assert [d[0]] + d[1..] == d;
    }
  }
}
