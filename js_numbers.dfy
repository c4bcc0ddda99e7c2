/**
 * The two JavaScript number conversions the editor relies on: `parseInt(s)`
 * with no radix (a prefix parser) and `String(n)` for an integer `n`.
 * `NaN` is `None`. Numbers are unbounded integers here.
 */
module JsNumbers {
  import opened Wrappers

  /** StrWhiteSpaceChar: the characters `parseInt` skips before the number. */
  predicate IsJsWhitespace(c: char) {
    var k := c as int;
    (9 <= k <= 13) || k == 0x20 || k == 0xA0 || k == 0x1680 || (0x2000 <= k <= 0x200A)
    || k == 0x2028 || k == 0x2029 || k == 0x202F || k == 0x205F || k == 0x3000 || k == 0xFEFF
  }

  function TrimStart(s: string): (r: string)
    ensures |r| <= |s|
    ensures r != [] ==> !IsJsWhitespace(r[0])
  {
    if s != [] && IsJsWhitespace(s[0]) then TrimStart(s[1..]) else s
  }

  /** Value of `c` as a digit in base `radix` (10 or 16), or -1. */
  function DigitValue(c: char, radix: int): (d: int)
    ensures d == -1 || 0 <= d < radix
    ensures radix == 10 ==> (d >= 0 <==> '0' <= c <= '9')
  {
    if '0' <= c <= '9' then (if c as int - '0' as int < radix then c as int - '0' as int else -1)
    else if radix == 16 && 'a' <= c <= 'f' then c as int - 'a' as int + 10
    else if radix == 16 && 'A' <= c <= 'F' then c as int - 'A' as int + 10
    else -1
  }

  /** The longest prefix of `s` made of base-`radix` digits. */
  function DigitPrefix(s: string, radix: int): (z: string)
    ensures |z| <= |s| && z == s[..|z|]
    ensures forall k :: 0 <= k < |z| ==> DigitValue(z[k], radix) >= 0
    ensures |z| < |s| ==> DigitValue(s[|z|], radix) < 0
  {
    if s != [] && DigitValue(s[0], radix) >= 0 then [s[0]] + DigitPrefix(s[1..], radix) else []
  }

  /** The mathematical value of a digit string, most significant digit first. */
  function DigitsValue(z: string, radix: int): nat
    requires radix == 10 || radix == 16
    requires forall k :: 0 <= k < |z| ==> DigitValue(z[k], radix) >= 0
  {
    if z == [] then 0 else DigitsValue(z[..|z| - 1], radix) * radix + DigitValue(z[|z| - 1], radix)
  }

  predicate LeadingDigit(u: string) {
    u != [] && '0' <= u[0] <= '9'
  }

  /** A `-` sign after the leading whitespace. */
  predicate Negative(s: string) {
    TrimStart(s) != [] && TrimStart(s)[0] == '-'
  }

  /** `0x` or `0X` at the start. */
  predicate HexPrefixed(u: string) {
    |u| >= 2 && u[0] == '0' && (u[1] == 'x' || u[1] == 'X')
  }

  /** The text after leading whitespace and an optional sign. */
  function Unsigned(s: string): (u: string)
    ensures |u| <= |s|
  {
    var t := TrimStart(s);
    if t != [] && (t[0] == '-' || t[0] == '+') then t[1..] else t
  }

  /** The digits after the sign: base 16 after a `0x`/`0X` prefix, else base 10. */
  function ParseUnsigned(u: string): (r: Option<int>)
    ensures r.Some? ==> r.value >= 0
    ensures r.Some? ==> LeadingDigit(u)
    ensures LeadingDigit(u) && !HexPrefixed(u) ==> r.Some?
  {
    var hex := HexPrefixed(u);
    var radix := if hex then 16 else 10;
    var z := DigitPrefix(if hex then u[2..] else u, radix);
    if z == [] then None else Some(DigitsValue(z, radix))
  }

  function Negated(r: Option<int>): Option<int> {
    if r.None? then None else Some(-r.value)
  }

  /**
   * `parseInt(s)`: skip leading whitespace, read an optional sign, then the
   * longest run of digits; no digit at all gives `NaN`.
   */
  function ParseInt(s: string): (r: Option<int>)
    ensures r.Some? ==> LeadingDigit(Unsigned(s))
    ensures LeadingDigit(Unsigned(s)) && !HexPrefixed(Unsigned(s)) ==> r.Some?
    ensures r.Some? && r.value < 0 ==> Negative(s)
    ensures Negative(s) && r.Some? ==> r.value <= 0
  {
    var t := TrimStart(s);
    if t != [] && t[0] == '-' then
      Negated(ParseUnsigned(t[1..]))
    else if t != [] && t[0] == '+' then ParseUnsigned(t[1..])
    else ParseUnsigned(t)
  }

  function DigitChar(d: nat): char
    requires d < 10
  {
    ('0' as int + d) as char
  }

  /** Decimal digits of a natural number, without leading zeros. */
  function NatDecimal(n: nat): (s: string)
    ensures s != []
  {
    if n < 10 then [DigitChar(n)] else NatDecimal(n / 10) + [DigitChar(n % 10)]
  }

  /** `String(n)` writes only digits, and starts with `0` only for zero. */
  lemma {:induction false} NatDecimalDigits(n: nat)
    ensures forall k :: 0 <= k < |NatDecimal(n)| ==> '0' <= NatDecimal(n)[k] <= '9'
    ensures NatDecimal(n)[0] == '0' ==> n == 0
  {
    if n >= 10 {
      NatDecimalDigits(n / 10);
    }
  }

  /** `String(n)` for an integer-valued number. */
  function Decimal(n: int): string {
    if n < 0 then "-" + NatDecimal(-n) else NatDecimal(n)
  }

  lemma {:induction false} DigitPrefixOfDigits(a: string, rest: string)
    requires forall k :: 0 <= k < |a| ==> '0' <= a[k] <= '9'
    requires rest == [] || !('0' <= rest[0] <= '9')
    ensures DigitPrefix(a + rest, 10) == a
  {
    if a != [] {
      assert (a + rest)[1..] == a[1..] + rest;
      DigitPrefixOfDigits(a[1..], rest);
    } else {
      assert a + rest == rest;
    }
  }

  lemma {:induction false} NatDecimalValue(n: nat)
    ensures forall k :: 0 <= k < |NatDecimal(n)| ==> DigitValue(NatDecimal(n)[k], 10) >= 0
    ensures DigitsValue(NatDecimal(n), 10) == n
  {
    NatDecimalDigits(n);
    var s := NatDecimal(n);
    if n >= 10 {
      NatDecimalValue(n / 10);
      assert s[..|s| - 1] == NatDecimal(n / 10);
    }
  }

  lemma UnsignedPrefix(m: nat, rest: string)
    requires rest == [] || !('0' <= rest[0] <= '9')
    requires m == 0 ==> rest == [] || (rest[0] != 'x' && rest[0] != 'X')
    ensures ParseUnsigned(NatDecimal(m) + rest) == Some(m)
  {
    var a := NatDecimal(m);
    var u := a + rest;
    NatDecimalDigits(m);
    assert !(|u| >= 2 && u[0] == '0' && (u[1] == 'x' || u[1] == 'X')) by {
      if |u| >= 2 && u[0] == '0' {
        assert m == 0;
        assert u[1] == rest[0];
      }
    }
    DigitPrefixOfDigits(a, rest);
    NatDecimalValue(m);
  }

  lemma ParseIntNoSign(s: string)
    requires s != [] && !IsJsWhitespace(s[0]) && s[0] != '-' && s[0] != '+'
    ensures ParseInt(s) == ParseUnsigned(s)
  {
    assert TrimStart(s) == s;
  }

  lemma ParseIntMinus(s: string)
    requires s != [] && s[0] == '-'
    ensures ParseInt(s) == Negated(ParseUnsigned(s[1..]))
  {
    assert TrimStart(s) == s;
  }

  lemma ParseIntPrefixNonNegative(n: nat, rest: string)
    requires rest == [] || !('0' <= rest[0] <= '9')
    requires n == 0 ==> rest == [] || (rest[0] != 'x' && rest[0] != 'X')
    ensures ParseInt(Decimal(n) + rest) == Some(n)
  {
    var s := NatDecimal(n) + rest;
    assert Decimal(n) + rest == s;
    assert s[0] == NatDecimal(n)[0];
    NatDecimalDigits(n);
    UnsignedPrefix(n, rest);
    ParseIntNoSign(s);
  }

  lemma ParseIntMinusDecimal(m: int, rest: string, s: string)
    requires m > 0
    requires rest == [] || !('0' <= rest[0] <= '9')
    requires s == "-" + (NatDecimal(m) + rest)
    ensures ParseInt(s) == Some(-m)
  {
    var u := NatDecimal(m) + rest;
    assert s[1..] == u;
    UnsignedPrefix(m, rest);
    ParseIntMinus(s);
  }

  lemma ParseIntPrefixNegative(n: int, rest: string)
    requires n < 0
    requires rest == [] || !('0' <= rest[0] <= '9')
    ensures ParseInt(Decimal(n) + rest) == Some(n)
  {
    var a := NatDecimal(-n);
    assert Decimal(n) == "-" + a;
    assert ("-" + a) + rest == "-" + (a + rest);
    ParseIntMinusDecimal(-n, rest, Decimal(n) + rest);
  }

  /**
   * `parseInt` reads back what `String` wrote, and stops at the first
   * character that cannot continue the number: `parseInt(String(n) + rest)`
   * is `n` unless `rest` starts with a digit, or `n` is 0 and `rest` starts
   * with `x`/`X` (then `"0x…"` is read in base 16).
   */
  lemma ParseIntPrefix(n: int, rest: string)
    requires rest == [] || !('0' <= rest[0] <= '9')
    requires n == 0 ==> rest == [] || (rest[0] != 'x' && rest[0] != 'X')
    ensures ParseInt(Decimal(n) + rest) == Some(n)
  {
    if n < 0 {
      ParseIntPrefixNegative(n, rest);
    } else {
      ParseIntPrefixNonNegative(n, rest);
    }
  }

  lemma ParseIntDecimal(n: int)
    ensures ParseInt(Decimal(n)) == Some(n)
  {
    ParseIntPrefix(n, "");
    assert Decimal(n) + "" == Decimal(n);
  }

  /** Prefix parsing: "12abc" reads as 12. */
  lemma ParseIntStopsAtLetter()
    ensures ParseInt("12abc") == Some(12)
  {
    assert Decimal(12) == "12" by {
      assert NatDecimal(1) == "1";
    }
    assert Decimal(12) + "abc" == "12abc";
    ParseIntPrefix(12, "abc");
  }

  lemma ParseIntMinusThree()
    ensures ParseInt("-3") == Some(-3)
  {
    assert Decimal(-3) == "-3";
    ParseIntDecimal(-3);
  }

  /** No digit after the optional sign is `NaN`. */
  lemma {:induction false} ParseIntNoDigits(s: string)
    requires forall k :: 0 <= k < |s| ==> !('0' <= s[k] <= '9') && !IsJsWhitespace(s[k]) && s[k] != '+' && s[k] != '-'
    ensures ParseInt(s) == None
  {
    if s != [] {
      ParseIntNoSign(s);
    }
  }

  lemma ParseIntLetters()
    ensures ParseInt("abc") == None && ParseInt("") == None
  {
    ParseIntNoDigits("abc");
    ParseIntNoDigits("");
  }

  /** Leading whitespace and a `+` sign are skipped. */
  lemma ParseIntSpacePlus()
    ensures ParseInt(" +7") == Some(7)
  {
    assert TrimStart(" +7") == "+7" by {
      assert " +7"[1..] == "+7";
    }
    assert "+7"[1..] == "7";
    assert ParseUnsigned("7") == Some(7) by {
      assert DigitPrefix("7", 10) == "7";
    }
  }

  /** A `0x` prefix switches to base 16. */
  lemma ParseIntHex()
    ensures ParseInt("0x1A") == Some(26)
  {
    assert ParseUnsigned("0x1A") == Some(26) by {
      assert "0x1A"[2..] == "1A";
      assert DigitPrefix("1A", 16) == "1A";
      assert DigitsValue("1A", 16) == 26 by {
        assert "1A"[..1] == "1";
      }
    }
    ParseIntNoSign("0x1A");
  }
}
