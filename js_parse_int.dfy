/**
  The global `Number.parseInt(string)` of ECMAScript (ECMA-262, section 19.2.5,
  "parseInt ( string, radix )") called with the radix left undefined, as the
  captcha check does. With no radix the function reads decimal digits, except
  that a leading "0x" or "0X" (after the sign) switches it to hexadecimal.
  NaN is modelled as `None`; a numeric result as `Some` of the exact integer.
*/
module JsParseInt {
  import opened Wrappers

  /** StrWhiteSpaceChar: the WhiteSpace and LineTerminator code points of ECMA-262. */
  predicate IsStrWhiteSpace(c: char) {
    var k := c as int;
    // WhiteSpace: TAB, VT, FF, ZWNBSP
    k == 0x09 || k == 0x0B || k == 0x0C || k == 0xFEFF ||
    // WhiteSpace: the Space_Separator (Zs) category
    k == 0x20 || k == 0xA0 || k == 0x1680 || (0x2000 <= k <= 0x200A) ||
    k == 0x202F || k == 0x205F || k == 0x3000 ||
    // LineTerminator: LF, CR, LINE SEPARATOR, PARAGRAPH SEPARATOR
    k == 0x0A || k == 0x0D || k == 0x2028 || k == 0x2029
  }

  predicate AllWhiteSpace(s: string) {
    forall i :: 0 <= i < |s| ==> IsStrWhiteSpace(s[i])
  }

  /** Leading white space removed (TrimString with `start`). */
  function TrimStart(s: string): (t: string)
    ensures |t| <= |s|
    ensures t == [] || !IsStrWhiteSpace(t[0])
  {
    if s != [] && IsStrWhiteSpace(s[0]) then TrimStart(s[1..]) else s
  }

  /** TrimStart removes exactly the leading white space: what it drops is white space, what it keeps is a suffix. */
  lemma {:induction false} TrimStartIsSuffix(s: string)
    ensures TrimStart(s) == s[|s| - |TrimStart(s)|..]
    ensures AllWhiteSpace(s[..|s| - |TrimStart(s)|])
  {
    if s != [] && IsStrWhiteSpace(s[0]) {
      TrimStartIsSuffix(s[1..]);
    }
  }

  /** The value of a letter or digit as a digit in radixes up to 36; 36 for anything else. */
  function DigitValue(c: char): (d: nat)
    ensures d <= 36
    ensures d < 10 <==> '0' <= c <= '9'
  {
    if '0' <= c <= '9' then c as int - '0' as int
    else if 'a' <= c <= 'z' then c as int - 'a' as int + 10
    else if 'A' <= c <= 'Z' then c as int - 'A' as int + 10
    else 36
  }

  predicate IsRadixDigit(c: char, radix: nat) {
    DigitValue(c) < radix
  }

  predicate AllRadixDigits(z: string, radix: nat) {
    forall i :: 0 <= i < |z| ==> IsRadixDigit(z[i], radix)
  }

  /** The longest prefix of `s` made of radix-`radix` digits. */
  function DigitPrefix(s: string, radix: nat): (z: string)
    ensures z <= s
    ensures AllRadixDigits(z, radix)
    ensures |z| == |s| || !IsRadixDigit(s[|z|], radix)
  {
    if s != [] && IsRadixDigit(s[0], radix) then [s[0]] + DigitPrefix(s[1..], radix) else []
  }

  /** The integer that the digits `z` denote in radix `radix`, most significant first. */
  function DigitsValue(z: string, radix: nat): nat
    requires AllRadixDigits(z, radix)
  {
    if z == [] then 0 else DigitsValue(z[..|z| - 1], radix) * radix + DigitValue(z[|z| - 1])
  }

  predicate HasHexPrefix(u: string) {
    |u| >= 2 && u[0] == '0' && (u[1] == 'x' || u[1] == 'X')
  }

  /** The digits that follow the sign, read in radix 16 after "0x" or "0X", else in radix 10. */
  function ParseUnsigned(u: string): Option<nat> {
    if HasHexPrefix(u) then ParseDigits(u[2..], 16) else ParseDigits(u, 10)
  }

  /** The longest digit prefix of `v` as a number; NaN when `v` does not start with a digit. */
  function ParseDigits(v: string, radix: nat): Option<nat> {
    var z := DigitPrefix(v, radix);
    if z == [] then None else Some(DigitsValue(z, radix))
  }

  /** An optional sign, then the unsigned part; `-` negates. */
  function ParseSigned(t: string): Option<int> {
    if t != [] && t[0] == '-' then
      match ParseUnsigned(t[1..])
      case None => None
      case Some(m) => var v: int := m; Some(-v)
    else if t != [] && t[0] == '+' then ParseUnsigned(t[1..])
    else ParseUnsigned(t)
  }

  /** `Number.parseInt(s)` with the radix undefined. */
  function ParseInt(s: string): (r: Option<int>)
    ensures (forall i :: 0 <= i < |s| ==> !IsRadixDigit(s[i], 10)) ==> r == None
  {
    NoDigitsNoNumber(s);
    ParseSigned(TrimStart(s))
  }

  /** Without a decimal digit there is neither a "0x" prefix nor a digit to read. */
  lemma NoDigitsNoNumber(s: string)
    ensures (forall i :: 0 <= i < |s| ==> !IsRadixDigit(s[i], 10)) ==> ParseSigned(TrimStart(s)) == None
  {
    if forall i :: 0 <= i < |s| ==> !IsRadixDigit(s[i], 10) {
      var t := TrimStart(s);
      TrimStartIsSuffix(s);
      if t != [] {
        assert t[0] == s[|s| - |t|];
        if |t| > 1 {
          assert t[1] == s[|s| - |t| + 1];
        }
      }
    }
  }

  // ---------------------------------------------------------------------
  // A reference notation: the decimal numeral of an integer, as
  // `String(n)` writes it for an integer-valued Number of magnitude below
  // 10^21 (from there on `String` switches to exponent notation).

  function DigitChar(d: nat): (c: char)
    requires d < 10
    ensures DigitValue(c) == d
  {
    ('0' as int + d) as char
  }

  function NatToDecimal(n: nat): (s: string)
    ensures s != [] && AllRadixDigits(s, 10)
    ensures s[0] == '0' ==> n == 0
  {
    if n < 10 then [DigitChar(n)] else NatToDecimal(n / 10) + [DigitChar(n % 10)]
  }

  function IntToDecimal(n: int): string {
    if n < 0 then ['-'] + NatToDecimal(-n) else NatToDecimal(n)
  }

  // ---------------------------------------------------------------------
  // Properties of ParseInt.

  lemma {:induction false} TrimStartAfterWhiteSpace(ws: string, s: string)
    requires AllWhiteSpace(ws)
    ensures TrimStart(ws + s) == TrimStart(s)
  {
    if ws != [] {
      assert (ws + s)[0] == ws[0];
      assert (ws + s)[1..] == ws[1..] + s;
      TrimStartAfterWhiteSpace(ws[1..], s);
      assert TrimStart(ws + s) == TrimStart(ws[1..] + s);
    } else {
      assert ws + s == s;
    }
  }

  lemma {:induction false} DigitPrefixOfDigits(z: string, rest: string, radix: nat)
    requires AllRadixDigits(z, radix)
    requires rest == [] || !IsRadixDigit(rest[0], radix)
    ensures DigitPrefix(z + rest, radix) == z
  {
    if z != [] {
      assert (z + rest)[1..] == z[1..] + rest;
      DigitPrefixOfDigits(z[1..], rest, radix);
    }
  }

  lemma {:induction false} DecimalValue(n: nat)
    ensures DigitsValue(NatToDecimal(n), 10) == n
  {
    if n >= 10 {
      var s := NatToDecimal(n);
      assert s[..|s| - 1] == NatToDecimal(n / 10);
      DecimalValue(n / 10);
    }
  }

  /** Leading white space never changes the result. */
  lemma ParseIntSkipsWhiteSpace(ws: string, s: string)
    requires AllWhiteSpace(ws)
    ensures ParseInt(ws + s) == ParseInt(s)
  {
    TrimStartAfterWhiteSpace(ws, s);
  }

  /**
    The unsigned reading of a decimal numeral followed by anything that does
    not continue it: not a digit, and not an `x` or `X` after the numeral 0.
  */
  lemma ParseUnsignedOfDecimal(m: nat, rest: string)
    requires rest == [] || (!IsRadixDigit(rest[0], 10) && (m == 0 ==> rest[0] != 'x' && rest[0] != 'X'))
    ensures ParseUnsigned(NatToDecimal(m) + rest) == Some(m)
  {
    var d := NatToDecimal(m);
    var u := d + rest;
    assert u[0] == d[0];
    assert |u| >= 2 && |d| == 1 ==> u[1] == rest[0];
    assert |d| >= 2 ==> u[1] == d[1];
    DigitPrefixOfDigits(d, rest, 10);
    DecimalValue(m);
  }

  /** The signed reading of the decimal numeral of any integer. */
  lemma ParseSignedOfDecimal(n: int, rest: string)
    requires rest == [] || (!IsRadixDigit(rest[0], 10) && (n == 0 ==> rest[0] != 'x' && rest[0] != 'X'))
    ensures ParseSigned(IntToDecimal(n) + rest) == Some(n)
  {
    var m: nat := if n < 0 then -n else n;
    var u := NatToDecimal(m) + rest;
    var t := IntToDecimal(n) + rest;
    ParseUnsignedOfDecimal(m, rest);
    if n < 0 {
      assert t == ['-'] + u;
      assert t[0] == '-' && t[1..] == u;
    } else {
      assert t == u;
      assert DigitValue(u[0]) < 10;
      assert u[0] != '-' && u[0] != '+';
    }
  }

  /** A numeral starts with a sign or a digit, never with white space. */
  lemma DecimalNotTrimmed(n: int, rest: string)
    ensures TrimStart(IntToDecimal(n) + rest) == IntToDecimal(n) + rest
  {
  }

  /**
    Round trip: the decimal numeral of any integer, after any white space and
    followed by anything that does not continue the numeral (a digit, or an
    `x` or `X` after the numeral 0), reads back as that integer.
  */
  lemma ParseIntOfDecimal(ws: string, n: int, rest: string)
    requires AllWhiteSpace(ws)
    requires rest == [] || (!IsRadixDigit(rest[0], 10) && (n == 0 ==> rest[0] != 'x' && rest[0] != 'X'))
    ensures ParseInt(ws + IntToDecimal(n) + rest) == Some(n)
  {
    var t := IntToDecimal(n) + rest;
    assert ws + IntToDecimal(n) + rest == ws + t;
    ParseIntSkipsWhiteSpace(ws, t);
    DecimalNotTrimmed(n, rest);
    ParseSignedOfDecimal(n, rest);
  }

  /** A leading minus sign negates the value and keeps NaN as NaN. */
  lemma ParseIntNegative(s: string)
    requires s == [] || (!IsStrWhiteSpace(s[0]) && s[0] != '-' && s[0] != '+')
    ensures ParseInt(['-'] + s).Some? <==> ParseInt(s).Some?
    ensures ParseInt(s).Some? ==> ParseInt(['-'] + s) == Some(-ParseInt(s).value)
  {
  }
}
