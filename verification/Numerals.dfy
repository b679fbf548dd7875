/** Rendering of ids in decimal, and reading of nonces in hexadecimal. */
module Numerals {
  import opened Wrappers

  // ---- String(id), `${id}` ----

  function Digit(d: nat): (c: char)
    requires d < 10
    ensures c as int == '0' as int + d
  {
    ('0' as int + d) as char
  }

  function Decimal(n: nat): (s: string)
    ensures |s| > 0
  {
    if n < 10 then [Digit(n)] else Decimal(n / 10) + [Digit(n % 10)]
  }

  /** The number that a text of decimal digits stands for. */
  function DecimalValue(s: string): int {
    if s == [] then 0 else 10 * DecimalValue(s[..|s| - 1]) + (s[|s| - 1] as int - '0' as int)
  }

  /** An id is rendered as the digits of its value, without leading zeros. */
  lemma {:induction false} DecimalReads(n: nat)
    ensures DecimalValue(Decimal(n)) == n
    ensures forall i :: 0 <= i < |Decimal(n)| ==> '0' <= Decimal(n)[i] <= '9'
    ensures n > 0 ==> Decimal(n)[0] != '0'
  {
    var s := Decimal(n);
    if n < 10 {
      assert s[..|s| - 1] == [];
    } else {
      assert s[..|s| - 1] == Decimal(n / 10);
      DecimalReads(n / 10);
    }
  }

  /** Two ids never render alike, so a rendered id can stand for the id itself. */
  lemma {:induction false} DecimalInjective(m: nat, n: nat)
    requires Decimal(m) == Decimal(n)
    ensures m == n
  {
    var a, b := Decimal(m), Decimal(n);
    assert a[|a| - 1] == Digit(m % 10) && b[|b| - 1] == Digit(n % 10);
    if m < 10 || n < 10 {
      assert |Decimal(m)| == 1 && |Decimal(n)| == 1;
    } else {
      assert a[..|a| - 1] == Decimal(m / 10) && b[..|b| - 1] == Decimal(n / 10);
      DecimalInjective(m / 10, n / 10);
    }
  }

  // ---- parseInt(text, 16) ----

  function HexDigit(c: char): (d: Option<nat>)
    ensures d.Some? ==> d.value < 16
  {
    if '0' <= c <= '9' then Some((c as int) - ('0' as int))
    else if 'a' <= c <= 'f' then Some((c as int) - ('a' as int) + 10)
    else if 'A' <= c <= 'F' then Some((c as int) - ('A' as int) + 10)
    else None
  }

  /** Both spellings of the sixteen digits, and nothing else. */
  lemma DigitValues(d: nat, c: char)
    requires d < 16
    ensures HexDigit("0123456789abcdef"[d]) == Some(d) && HexDigit("0123456789ABCDEF"[d]) == Some(d)
    ensures HexDigit(c) == Some(d) ==> c == "0123456789abcdef"[d] || c == "0123456789ABCDEF"[d]
  {
  }

  /** The number of leading hexadecimal digits. */
  function HexPrefix(s: string): (k: nat)
    ensures k <= |s|
    ensures forall i :: 0 <= i < k ==> HexDigit(s[i]).Some?
    ensures k < |s| ==> HexDigit(s[k]).None?
  {
    if s == [] || HexDigit(s[0]).None? then 0 else 1 + HexPrefix(s[1..])
  }

  function HexValue(s: string): nat
    requires forall i :: 0 <= i < |s| ==> HexDigit(s[i]).Some?
  {
    if s == [] then 0 else 16 * HexValue(s[..|s| - 1]) + HexDigit(s[|s| - 1]).value
  }

  function Unprefixed(s: string): string {
    if |s| >= 2 && s[0] == '0' && (s[1] == 'x' || s[1] == 'X') then s[2..] else s
  }

  /** The value of the leading hexadecimal digits, after an optional 0x; None stands for NaN. */
  function ParseHex(s: string): Option<nat> {
    var t := Unprefixed(s);
    var k := HexPrefix(t);
    if k == 0 then None else Some(HexValue(t[..k]))
  }

  function HexChar(d: nat): (c: char)
    requires d < 16
    ensures HexDigit(c) == Some(d)
  {
    if d < 10 then ('0' as int + d) as char else ('a' as int + (d - 10)) as char
  }

  function Hex(n: nat): (s: string)
    ensures |s| > 0 && forall i :: 0 <= i < |s| ==> HexDigit(s[i]).Some?
  {
    if n < 16 then [HexChar(n)] else Hex(n / 16) + [HexChar(n % 16)]
  }

  lemma {:induction false} HexValueOfHex(n: nat)
    ensures HexValue(Hex(n)) == n
  {
    var s := Hex(n);
    if n < 16 {
      assert s[..|s| - 1] == [];
    } else {
      assert s[..|s| - 1] == Hex(n / 16);
      HexValueOfHex(n / 16);
    }
  }

  /** Each further digit multiplies by sixteen; the text may have a 0x, and ends at the first other character. */
  lemma ParseHexReads(s: string, rest: string)
    requires s != [] && forall i :: 0 <= i < |s| ==> HexDigit(s[i]).Some?
    requires rest == [] || HexDigit(rest[0]).None?
    requires |s| == 1 ==> rest == [] || (rest[0] != 'x' && rest[0] != 'X')
    ensures ParseHex(s + rest) == ParseHex("0x" + s + rest) == Some(HexValue(s))
    ensures |s| > 1 ==> HexValue(s) == 16 * HexValue(s[..|s| - 1]) + HexDigit(s[|s| - 1]).value
    ensures |s| == 1 ==> HexValue(s) == HexDigit(s[0]).value
  {
    PrefixDropped(s, rest);
    PrefixIs(s, rest);
    assert (s + rest)[..|s|] == s;
    assert |s| == 1 ==> s[..0] == [];
    hide Unprefixed, HexDigit;
  }

  lemma PrefixDropped(s: string, rest: string)
    requires s != [] && forall i :: 0 <= i < |s| ==> HexDigit(s[i]).Some?
    requires |s| == 1 ==> rest == [] || (rest[0] != 'x' && rest[0] != 'X')
    ensures Unprefixed(s + rest) == s + rest && Unprefixed("0x" + s + rest) == s + rest
  {
    var t := s + rest;
    assert "0x" + s + rest == "0x" + t && ("0x" + t)[2..] == t;
    assert |t| >= 2 ==> t[1] == if |s| >= 2 then s[1] else rest[0];
  }

  lemma {:induction false} PrefixIs(s: string, rest: string)
    requires forall i :: 0 <= i < |s| ==> HexDigit(s[i]).Some?
    requires rest == [] || HexDigit(rest[0]).None?
    ensures HexPrefix(s + rest) == |s|
  {
    if s == [] {
      assert s + rest == rest;
    } else {
      assert (s + rest)[1..] == s[1..] + rest;
      PrefixIs(s[1..], rest);
    }
  }

  /** Text without a leading digit is not a number. */
  lemma ParseHexFails(s: string)
    ensures ParseHex(s).None? <==> Unprefixed(s) == [] || HexDigit(Unprefixed(s)[0]).None?
  {
  }

  /** A nonce written as 0x and hexadecimal digits is read back as the same number. */
  lemma ParseHexRoundTrip(n: nat)
    ensures ParseHex("0x" + Hex(n)) == Some(n)
  {
    var t := Unprefixed("0x" + Hex(n));
    assert t == Hex(n);
    assert HexPrefix(t) == |t|;
    assert t[..|t|] == t;
    HexValueOfHex(n);
  }
}
