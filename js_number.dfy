/**
 * JavaScript numbers as the notifier uses them: integers rendered by template
 * interpolation or `toString()`, and `parseInt(s)` with no radix, which can
 * also give NaN.
 */
module JsNumber {
  import opened JsText

  /** A number as `parseInt` returns it: an integer or NaN. */
  datatype Number = Int(value: int) | NaN

  predicate IsDecimalDigit(c: char) {
    '0' <= c <= '9'
  }

  function DigitChar(d: nat): (c: char)
    requires d < 10
    ensures IsDecimalDigit(c) && DigitValue(c) == d
  {
    (48 + d) as char
  }

  /** The decimal digits of `n`, most significant first, without leading zeros. */
  function NatToString(n: nat): (r: string)
    ensures |r| >= 1
    ensures forall i :: 0 <= i < |r| ==> IsDecimalDigit(r[i])
    decreases n
  {
    if n < 10 then [DigitChar(n)] else NatToString(n / 10) + [DigitChar(n % 10)]
  }

  /** `${n}` for an integer `n` (below 1e21 in magnitude, where JavaScript switches to exponent form). */
  function IntToString(n: int): (r: string)
    ensures |r| >= 1
    ensures forall i :: 0 <= i < |r| ==> IsDecimalDigit(r[i]) || (i == 0 && r[i] == '-')
    ensures n >= 0 <==> IsDecimalDigit(r[0])
  {
    if n < 0 then "-" + NatToString(-n) else NatToString(n)
  }

  /** `${x}` for a number that may be NaN. */
  function NumberToString(x: Number): string {
    match x
    case Int(n) => IntToString(n)
    case NaN => "NaN"
  }

  /** The value of a digit in radix 36 notation; 36 for a character that is no digit at all. */
  function DigitValue(c: char): nat {
    if '0' <= c <= '9' then c as nat - 48
    else if 'a' <= c <= 'z' then c as nat - 87
    else if 'A' <= c <= 'Z' then c as nat - 55
    else 36
  }

  /** The length of the longest prefix of `s` made of digits of the given radix. */
  function DigitRun(s: string, radix: nat): (k: nat)
    ensures k <= |s|
    ensures forall i :: 0 <= i < k ==> DigitValue(s[i]) < radix
    ensures k < |s| ==> DigitValue(s[k]) >= radix
  {
    if s == [] || DigitValue(s[0]) >= radix then 0 else 1 + DigitRun(s[1..], radix)
  }

  /** The value of a string of digits in the given radix. */
  function ValueOf(s: string, radix: nat): nat {
    if s == [] then 0 else ValueOf(s[..|s| - 1], radix) * radix + DigitValue(s[|s| - 1])
  }

  /**
   * `parseInt(s)` with no radix, as ECMAScript defines it: skip leading white
   * space, take an optional sign, read hexadecimal after a "0x" or "0X" prefix
   * and decimal otherwise, and use the longest run of digits; with no digits
   * the result is NaN. Precision loss above 2^53 is not modelled.
   */
  function ParseInt(s: string): Number {
    var t := s[LeadingSpace(s)..];
    if |t| > 0 && t[0] == '-' then Negate(ParseUnsigned(t[1..]))
    else if |t| > 0 && t[0] == '+' then ParseUnsigned(t[1..])
    else ParseUnsigned(t)
  }

  /** The digits after the sign: hexadecimal after "0x" or "0X", decimal otherwise; NaN when there are none. */
  function ParseUnsigned(u: string): Number {
    var hex := |u| >= 2 && u[0] == '0' && (u[1] == 'x' || u[1] == 'X');
    var radix := if hex then 16 else 10;
    var body := if hex then u[2..] else u;
    var digits := body[..DigitRun(body, radix)];
    if digits == [] then NaN else Int(ValueOf(digits, radix))
  }

  function Negate(x: Number): Number {
    match x
    case Int(n) => Int(-n)
    case NaN => NaN
  }

  /** The decimal digits of `n` read back give `n`. */
  lemma {:induction false} ValueOfNatToString(n: nat)
    ensures ValueOf(NatToString(n), 10) == n
    decreases n
  {
    var r := NatToString(n);
    if n >= 10 {
      ValueOfNatToString(n / 10);
      assert r[..|r| - 1] == NatToString(n / 10);
    }
  }

  /** `parseInt` reads back every integer that `${n}` renders. */
  lemma ParseIntOfIntToString(n: int)
    ensures ParseInt(IntToString(n)) == Int(n)
  {
    var r := IntToString(n);
    var m: nat := if n < 0 then -n else n;
    assert !IsJsSpace(r[0]);
    assert LeadingSpace(r) == 0;
    assert r[0..] == r;
    ParseUnsignedOfNatToString(m);
    if n < 0 {
      assert r[1..] == NatToString(m);
    } else {
      assert r == NatToString(m);
    }
  }

  /** The decimal digits of `m` read back as `m`: they have no "0x" prefix and form one run. */
  lemma ParseUnsignedOfNatToString(m: nat)
    ensures ParseUnsigned(NatToString(m)) == Int(m)
  {
    var d := NatToString(m);
    assert !(|d| >= 2 && d[0] == '0' && (d[1] == 'x' || d[1] == 'X')) by {
      if |d| >= 2 { assert IsDecimalDigit(d[1]); }
    }
    assert forall i :: 0 <= i < |d| ==> DigitValue(d[i]) < 10;
    assert DigitRun(d, 10) == |d|;
    assert d[..|d|] == d;
    ValueOfNatToString(m);
  }

  /** A rendered integer contains only digits and a leading minus sign; in particular no '小'. */
  lemma IntToStringHasNo(n: int, c: char)
    requires !IsDecimalDigit(c) && c != '-'
    ensures c !in IntToString(n)
  {
  }
}
