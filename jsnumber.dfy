/**
 * Conversions between integers and strings as the JavaScript runtime does
 * them: `String(n)` for integers and `parseInt(s)` with no radix.
 */
module JsNumber {
  import opened Wrappers
  import opened JsString

  function DigitChar(d: nat): (c: char)
    requires d < 10
    ensures IsDigit(c)
  {
    ('0' as int + d) as char
  }

  function DigitValue(c: char): (d: nat)
    requires IsDigit(c)
    ensures d < 10 && DigitChar(d) == c
  {
    c as int - '0' as int
  }

  predicate AllDigits(s: string) {
    forall i :: 0 <= i < |s| ==> IsDigit(s[i])
  }

  /** `String(n)` for a non-negative integer: its decimal digits, most significant first. */
  function NatToString(n: nat): (s: string)
    ensures |s| >= 1 && AllDigits(s)
    ensures s[0] == '0' ==> n == 0
  {
    if n < 10 then [DigitChar(n)] else NatToString(n / 10) + [DigitChar(n % 10)]
  }

  /** `String(i)` for any integer: a minus sign in front of negative values. */
  function IntToString(i: int): (s: string)
    ensures |s| >= 1
  {
    if i < 0 then "-" + NatToString(-i) else NatToString(i)
  }

  /** The value of a run of decimal digits. */
  function DecimalValue(s: string): nat
    requires AllDigits(s)
  {
    if s == [] then 0 else DecimalValue(s[..|s| - 1]) * 10 + DigitValue(s[|s| - 1])
  }

  lemma {:induction false} DecimalOfNatToString(n: nat)
    ensures DecimalValue(NatToString(n)) == n
  {
    if n >= 10 {
      var s := NatToString(n);
      assert s[..|s| - 1] == NatToString(n / 10);
      DecimalOfNatToString(n / 10);
    }
  }

  /** Distinct numbers print differently. */
  lemma NatToStringInjective(a: nat, b: nat)
    requires NatToString(a) == NatToString(b)
    ensures a == b
  {
    DecimalOfNatToString(a);
    DecimalOfNatToString(b);
  }

  predicate IsHexDigit(c: char) {
    IsDigit(c) || ('a' <= c <= 'f') || ('A' <= c <= 'F')
  }

  function HexValue(c: char): (d: nat)
    requires IsHexDigit(c)
    ensures d < 16
  {
    if IsDigit(c) then DigitValue(c)
    else if 'a' <= c <= 'f' then c as int - 'a' as int + 10
    else c as int - 'A' as int + 10
  }

  predicate IsRadixDigit(c: char, radix: nat) {
    if radix == 16 then IsHexDigit(c) else IsDigit(c)
  }

  /** The longest prefix of `s` made of digits of the radix (10 or 16). */
  function DigitPrefix(s: string, radix: nat): (z: string)
    ensures |z| <= |s| && z == s[..|z|]
    ensures forall i :: 0 <= i < |z| ==> IsRadixDigit(z[i], radix)
    ensures |z| < |s| ==> !IsRadixDigit(s[|z|], radix)
  {
    if s == [] || !IsRadixDigit(s[0], radix) then []
    else [s[0]] + DigitPrefix(s[1..], radix)
  }

  function RadixValue(z: string, radix: nat): nat
    requires forall i :: 0 <= i < |z| ==> IsRadixDigit(z[i], radix)
  {
    if z == [] then 0
    else
      var last := z[|z| - 1];
      assert IsRadixDigit(last, radix);
      RadixValue(z[..|z| - 1], radix) * (if radix == 16 then 16 else 10)
        + (if radix == 16 then HexValue(last) else DigitValue(last))
  }

  function TrimStart(s: string): (t: string)
    ensures |t| <= |s|
    ensures t == s[|s| - |t|..]
    ensures t != [] ==> !IsWhitespace(t[0])
  {
    if s != [] && IsWhitespace(s[0]) then TrimStart(s[1..]) else s
  }

  /** The digits after the sign: a `0x`/`0X` prefix selects base 16; None when no digit follows. */
  function ParseUnsigned(u: string): (r: Option<nat>)
  {
    var hex := |u| >= 2 && u[0] == '0' && (u[1] == 'x' || u[1] == 'X');
    var radix := if hex then 16 else 10;
    var z := DigitPrefix(if hex then u[2..] else u, radix);
    if z == [] then None else Some(RadixValue(z, radix))
  }

  /**
   * `parseInt(s)` with no radix: leading white space is skipped, one sign is
   * read, and the rest is read by `ParseUnsigned`. None stands for `NaN`.
   * (A negative zero is the integer 0 here.)
   */
  function ParseInt(s: string): (r: Option<int>)
  {
    var t := TrimStart(s);
    var negative := t != [] && t[0] == '-';
    var u := if t != [] && (t[0] == '-' || t[0] == '+') then t[1..] else t;
    match ParseUnsigned(u)
    case None => None
    case Some(v) =>
      var w: int := if negative then -(v as int) else v;
      Some(w)
  }

  lemma {:induction false} DigitPrefixAll(s: string)
    requires AllDigits(s)
    ensures DigitPrefix(s, 10) == s
  {
    if s != [] {
      DigitPrefixAll(s[1..]);
    }
  }

  lemma {:induction false} RadixTenIsDecimal(z: string)
    requires AllDigits(z)
    ensures RadixValue(z, 10) == DecimalValue(z)
  {
    if z != [] {
      RadixTenIsDecimal(z[..|z| - 1]);
    }
  }

  lemma ParseUnsignedDigits(d: string)
    requires |d| >= 1 && AllDigits(d)
    ensures ParseUnsigned(d) == Some(DecimalValue(d))
  {
    assert IsDigit(d[0]);
    assert |d| >= 2 ==> IsDigit(d[1]);
    DigitPrefixAll(d);
    RadixTenIsDecimal(d);
  }

  /** A run of decimal digits parses to its value. */
  lemma ParseDigits(d: string)
    requires |d| >= 1 && AllDigits(d)
    ensures ParseInt(d) == Some(DecimalValue(d))
  {
    ParseUnsignedDigits(d);
    assert !IsWhitespace(d[0]) && d[0] != '-' && d[0] != '+' by { assert IsDigit(d[0]); }
    assert TrimStart(d) == d;
  }

  /** A leading minus sign negates what the unsigned part reads. */
  lemma ParseMinus(rest: string, v: nat)
    requires ParseUnsigned(rest) == Some(v)
    ensures ParseInt("-" + rest) == Some(-(v as int))
  {
    var m := "-" + rest;
    assert m[0] == '-' && m[1..] == rest;
    assert !IsWhitespace(m[0]);
    var t := TrimStart(m);
    assert t == m;
    assert t != [] && t[0] == '-' && t[1..] == rest;
  }

  /** `parseInt(String(n))` gives `n` back for every non-negative integer. */
  lemma ParseNatToString(n: nat)
    ensures ParseInt(NatToString(n)) == Some(n)
  {
    ParseDigits(NatToString(n));
    DecimalOfNatToString(n);
  }

  /** `parseInt(String(i))` gives `i` back for every integer. */
  lemma ParseIntToString(i: int)
    ensures ParseInt(IntToString(i)) == Some(i)
  {
    if i >= 0 {
      ParseNatToString(i);
    } else {
      ParseUnsignedDigits(NatToString(-i));
      DecimalOfNatToString(-i);
      ParseMinus(NatToString(-i), -i);
    }
  }
}
