/** Decimal text and numbers: `Number.prototype.toString()` for integers and
    JavaScript's `parseInt(s)` without a radix. */
module Decimal {
  import opened Base
  import opened Text

  predicate IsDigit(c: char) { '0' <= c <= '9' }

  predicate AllDigits(s: string) { forall i :: 0 <= i < |s| ==> IsDigit(s[i]) }

  function DigitValue(c: char): (d: nat)
    requires IsDigit(c)
    ensures d < 10
  {
    c as int - '0' as int
  }

  function DigitChar(d: nat): (c: char)
    requires d < 10
    ensures IsDigit(c) && DigitValue(c) == d
  {
    ('0' as int + d) as char
  }

  /** The decimal digits of `n`, most significant first, without leading zeros. */
  function NatToString(n: nat): (s: string)
    ensures |s| >= 1 && AllDigits(s)
    ensures s[0] == '0' ==> n == 0 && |s| == 1
    decreases n
  {
    if n < 10 then [DigitChar(n)] else NatToString(n / 10) + [DigitChar(n % 10)]
  }

  /** `String(i)` for an integer. */
  function IntToString(i: int): (s: string)
    ensures i >= 0 ==> s == NatToString(i)
    ensures i < 0 ==> s == "-" + NatToString(-i)
  {
    if i < 0 then "-" + NatToString(-i) else NatToString(i)
  }

  /** The number a string of decimal digits denotes (leading zeros allowed). */
  function DigitsValue(s: string): nat
    requires AllDigits(s)
    decreases |s|
  {
    if s == [] then 0 else 10 * DigitsValue(s[..|s| - 1]) + DigitValue(s[|s| - 1])
  }

  /** Reading back the digits of `n` gives `n`. */
  lemma {:induction false} NatToStringRoundTrip(n: nat)
    ensures DigitsValue(NatToString(n)) == n
    decreases n
  {
    if n >= 10 {
      NatToStringRoundTrip(n / 10);
      var s := NatToString(n);
      assert s[..|s| - 1] == NatToString(n / 10);
    }
  }

  lemma {:induction false} ZerosAreZero(k: nat)
    ensures AllDigits(Repeat('0', k)) && DigitsValue(Repeat('0', k)) == 0
  {
    if k > 0 {
      ZerosAreZero(k - 1);
      var z := Repeat('0', k);
      assert z[..k - 1] == Repeat('0', k - 1);
    }
  }

  /** Leading zeros do not change the value of a digit string. */
  lemma {:induction false} LeadingZerosIgnored(k: nat, s: string)
    requires AllDigits(s)
    ensures AllDigits(Repeat('0', k) + s)
    ensures DigitsValue(Repeat('0', k) + s) == DigitsValue(s)
    decreases |s|
  {
    ZerosAreZero(k);
    if s != [] {
      LeadingZerosIgnored(k, s[..|s| - 1]);
      var t := Repeat('0', k) + s;
      assert t[..|t| - 1] == Repeat('0', k) + s[..|s| - 1];
    } else {
      assert Repeat('0', k) + s == Repeat('0', k);
    }
  }

  /** The white space `parseInt` skips: StrWhiteSpaceChar of ECMAScript
      (tab, the line terminators, vertical tab, form feed, no-break space,
      byte order mark and the space separators of Unicode). */
  predicate IsSpace(c: char)
  {
    var k := c as int;
    k == 0x09 || k == 0x0A || k == 0x0B || k == 0x0C || k == 0x0D || k == 0x20
    || k == 0xA0 || k == 0x1680 || (0x2000 <= k <= 0x200A) || k == 0x2028
    || k == 0x2029 || k == 0x202F || k == 0x205F || k == 0x3000 || k == 0xFEFF
  }

  function TrimStart(s: string): (r: string)
    ensures |r| <= |s| && r == s[|s| - |r|..]
    ensures r != [] ==> !IsSpace(r[0])
    decreases |s|
  {
    if |s| > 0 && IsSpace(s[0]) then TrimStart(s[1..]) else s
  }

  /** The longest prefix of `s` made of decimal digits. */
  function DigitPrefix(s: string): (r: string)
    ensures AllDigits(r) && |r| <= |s| && r == s[..|r|]
    ensures AllDigits(s) ==> r == s
    decreases |s|
  {
    if |s| > 0 && IsDigit(s[0]) then [s[0]] + DigitPrefix(s[1..]) else ""
  }

  predicate IsHexDigit(c: char)
  {
    IsDigit(c) || 'a' <= c <= 'f' || 'A' <= c <= 'F'
  }

  function HexDigitValue(c: char): (d: nat)
    requires IsHexDigit(c)
    ensures d < 16
  {
    if IsDigit(c) then DigitValue(c)
    else if 'a' <= c <= 'f' then c as int - 'a' as int + 10
    else c as int - 'A' as int + 10
  }

  function HexPrefix(s: string): (r: string)
    ensures |r| <= |s| && r == s[..|r|]
    ensures forall i :: 0 <= i < |r| ==> IsHexDigit(r[i])
    decreases |s|
  {
    if |s| > 0 && IsHexDigit(s[0]) then [s[0]] + HexPrefix(s[1..]) else ""
  }

  function HexValue(s: string): nat
    requires forall i :: 0 <= i < |s| ==> IsHexDigit(s[i])
    decreases |s|
  {
    if s == [] then 0 else 16 * HexValue(s[..|s| - 1]) + HexDigitValue(s[|s| - 1])
  }

  /** `parseInt(s)`: skip leading white space and read an optional sign; the
      magnitude follows. No digit at all is `NaN`, here `None`. */
  function ParseInt(s: string): (r: Option<int>)
    ensures s != "" && AllDigits(s) ==> r == Some(DigitsValue(s))
  {
    var t := TrimStart(s);
    var negative := |t| > 0 && t[0] == '-';
    var u := if |t| > 0 && (t[0] == '-' || t[0] == '+') then t[1..] else t;
    var m := ParseMagnitude(u);
    var v: int := if m.None? then 0 else m.value;
    if m.None? then None else Some(if negative then -v else v)
  }

  /** The magnitude `parseInt` reads after the sign: a "0x"/"0X" prefix
      switches to hexadecimal, and the longest run of digits that follows is
      the value. */
  function ParseMagnitude(u: string): (r: Option<nat>)
    ensures u != "" && AllDigits(u) ==> r == Some(DigitsValue(u))
  {
    if |u| >= 2 && u[0] == '0' && (u[1] == 'x' || u[1] == 'X') then
      var h := HexPrefix(u[2..]);
      if h == "" then None else Some(HexValue(h))
    else
      var d := DigitPrefix(u);
      if d == "" then None else Some(DigitsValue(d))
  }

  /** `parseInt(String(n))` is `n` for every natural number. */
  lemma ParseIntRoundTrip(n: nat)
    ensures ParseInt(NatToString(n)) == Some(n)
  {
    NatToStringRoundTrip(n);
  }

  /** The digit run at the front of `d + rest` is `d` when `rest` does not go
      on with a digit. */
  lemma {:induction false} DigitPrefixStops(d: string, rest: string)
    requires AllDigits(d)
    requires rest == [] || !IsDigit(rest[0])
    ensures DigitPrefix(d + rest) == d
    decreases |d|
  {
    if d == [] {
      assert d + rest == rest;
    } else {
      assert (d + rest)[1..] == d[1..] + rest;
      DigitPrefixStops(d[1..], rest);
    }
  }

  /** The magnitude read from text that starts with the decimal digits of `n`
      is `n`, whatever follows them, unless a "0x" prefix would be formed. */
  lemma MagnitudeOfLeadingNumber(n: nat, rest: string)
    requires rest == [] || (!IsDigit(rest[0]) && rest[0] != 'x' && rest[0] != 'X')
    ensures ParseMagnitude(NatToString(n) + rest) == Some(n)
  {
    var digits := NatToString(n);
    var s := digits + rest;
    assert !(|s| >= 2 && s[0] == '0' && (s[1] == 'x' || s[1] == 'X')) by {
      if |s| >= 2 && s[0] == '0' {
        assert |digits| == 1;
        assert s[1] == rest[0];
      }
    }
    DigitPrefixStops(digits, rest);
    NatToStringRoundTrip(n);
  }

  /** `parseInt` reads a number back from text that starts with its decimal
      digits, whatever follows them, unless a "0x" prefix would be formed. */
  lemma ParseIntOfLeadingNumber(n: nat, rest: string)
    requires rest == [] || (!IsDigit(rest[0]) && rest[0] != 'x' && rest[0] != 'X')
    ensures ParseInt(NatToString(n) + rest) == Some(n)
  {
    var s := NatToString(n) + rest;
    assert s[0] == NatToString(n)[0];
    UnsignedText(s);
    MagnitudeOfLeadingNumber(n, rest);
  }

  /** Text that starts with a digit has no white space or sign to skip: its
      value is its magnitude. */
  lemma UnsignedText(s: string)
    requires |s| > 0 && IsDigit(s[0])
    ensures ParseInt(s) == ParseMagnitude(s)
  {
    assert !IsSpace(s[0]);
    assert TrimStart(s) == s;
  }

  /** How `String(value)` and a template literal (`${value}`) render a JSON value. */
  function Rendered(v: Option<Json>): string
  {
    match v
    case None => "undefined"
    case Some(JNull) => "null"
    case Some(JBool(b)) => if b then "true" else "false"
    case Some(JNum(n)) => IntToString(n)
    case Some(JStr(s)) => s
    case Some(JObject) => "[object Object]"
  }
}
