/**
 * Integer text as Python writes and reads it: `str(n)` / `'{}'.format(n)` for an
 * int, and the subset of `int(s, 0)` that the option parsers rely on.
 */
module Numerals {

  import opened Wrappers

  predicate IsDigit(c: char) {
    '0' <= c <= '9'
  }

  predicate AllDigits(s: string) {
    forall i :: 0 <= i < |s| ==> IsDigit(s[i])
  }

  function DigitChar(d: int): (c: char)
    requires 0 <= d < 10
    ensures IsDigit(c) && c as int - '0' as int == d
  {
    (d + '0' as int) as char
  }

  /** The decimal digits of `n`, most significant first, without leading zeros. */
  function Digits(n: nat): (s: string)
    ensures |s| >= 1 && AllDigits(s)
    ensures s[0] == '0' <==> n == 0
    ensures n == 0 ==> s == "0"
    decreases n
  {
    if n < 10 then [DigitChar(n)] else Digits(n / 10) + [DigitChar(n % 10)]
  }

  /** `str(n)` for a Python int. */
  function IntToString(n: int): (s: string)
    ensures |s| >= 1
    ensures n >= 0 ==> AllDigits(s)
    ensures n < 0 ==> s[0] == '-' && AllDigits(s[1..])
  {
    if n < 0 then "-" + Digits(-n) else Digits(n)
  }

  /** The value of a non-empty run of decimal digits. */
  function DecimalValue(s: string): (v: nat)
    requires AllDigits(s)
    decreases |s|
  {
    if s == [] then 0 else DecimalValue(s[..|s| - 1]) * 10 + (s[|s| - 1] as int - '0' as int)
  }

  function HexDigit(c: char): Option<nat> {
    if '0' <= c <= '9' then Some(c as int - '0' as int)
    else if 'a' <= c <= 'f' then Some(c as int - 'a' as int + 10)
    else if 'A' <= c <= 'F' then Some(c as int - 'A' as int + 10)
    else None
  }

  /** The value of a run of hexadecimal digits, None if a character is not one. */
  function HexValue(s: string): Option<nat>
    decreases |s|
  {
    if s == [] then Some(0)
    else match (HexValue(s[..|s| - 1]), HexDigit(s[|s| - 1]))
      case (Some(high), Some(low)) => Some(high * 16 + low)
      case _ => None
  }

  /** An unsigned base-0 literal: `0x`/`0X` and hex digits, or decimal digits
      where a leading zero is only allowed in a run of zeros. */
  function ParseUnsigned(s: string): Option<nat> {
    if |s| >= 2 && s[0] == '0' && (s[1] == 'x' || s[1] == 'X') then
      if |s| > 2 then HexValue(s[2..]) else None
    else if s != [] && AllDigits(s) then
      if s[0] == '0' && exists i :: 0 <= i < |s| && s[i] != '0' then None
      else Some(DecimalValue(s))
    else None
  }

  /** `int(s, 0)` on decimal and `0x` literals with an optional sign. None for a malformed
      literal, and also for the `0o` and `0b` literals, `_` digit separators and surrounding
      whitespace that Python accepts. */
  function ParseInt(s: string): Option<int> {
    if s != [] && s[0] == '-' then
      match ParseUnsigned(s[1..])
      case Some(v) => Some(-(v as int))
      case None => None
    else if s != [] && s[0] == '+' then
      match ParseUnsigned(s[1..])
      case Some(v) => Some(v)
      case None => None
    else
      match ParseUnsigned(s)
      case Some(v) => Some(v)
      case None => None
  }

  lemma {:induction false} DigitsValue(n: nat)
    ensures DecimalValue(Digits(n)) == n
    decreases n
  {
    var s := Digits(n);
    if n < 10 {
      assert s[..|s| - 1] == [];
    } else {
      DigitsValue(n / 10);
      assert s[..|s| - 1] == Digits(n / 10);
    }
  }

  lemma DigitsParse(n: nat)
    ensures ParseUnsigned(Digits(n)) == Some(n)
  {
    var s := Digits(n);
    DigitsValue(n);
    if s[0] == '0' {
      assert s == "0";
      assert !exists i :: 0 <= i < |s| && s[i] != '0';
    }
  }

  /** Reading back what `str` wrote gives the same integer. */
  lemma IntToStringRoundTrip(n: int)
    ensures ParseInt(IntToString(n)) == Some(n)
  {
    if n < 0 {
      var s := IntToString(n);
      assert s[1..] == Digits(-n);
      DigitsParse(-n);
    } else {
      DigitsParse(n);
    }
  }

  /** The default colour `0x2176C7` parses to 2193095. */
  lemma DefaultColorValue()
    ensures ParseInt("0x2176C7") == Some(0x2176C7)
  {
    var h := "2176C7";
    assert h[..5] == "2176C" && "2176C"[..4] == "2176" && "2176"[..3] == "217";
    assert "217"[..2] == "21" && "21"[..1] == "2" && "2"[..0] == "";
    assert HexValue("2") == Some(2);
    assert HexValue("21") == Some(0x21);
    assert HexValue("217") == Some(0x217);
    assert HexValue("2176") == Some(0x2176);
    assert HexValue("2176C") == Some(0x2176C);
    assert HexValue(h) == Some(0x2176C7);
    assert "0x2176C7"[2..] == h;
  }

  /** `int("010", 0)` is rejected, `int("00", 0)` is not. */
  lemma LeadingZeros()
    ensures ParseInt("010") == None
    ensures ParseInt("00") == Some(0)
  {
    var z := "00";
    assert z[..1] == "0" && z[..1][..0] == "";
    assert DecimalValue(z) == 0;
    assert "010"[1] != '0';
  }

  /** Literals Python's `int(s, 0)` accepts (as 15, 5, 1000 and 5) that this parser does not read. */
  lemma UnreadLiterals()
    ensures ParseInt("0o17") == None && ParseInt("0b101") == None
    ensures ParseInt("1_000") == None && ParseInt(" 5") == None
  {
    assert !IsDigit("0o17"[1]) && !IsDigit("0b101"[1]) && !IsDigit("1_000"[1]) && !IsDigit(" 5"[0]);
  }
}
