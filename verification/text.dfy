/**
 * Digits and hexadecimal characters as the reader classifies them
 * (`is_char_digit`, `is_char_hexa`, `char_to_int`, `hexa_to_int`) and as the
 * writer prints them (`printf`'s `%d` and `%02x`).
 */
module Text {
  predicate IsDigitChar(c: char)
  {
    '0' <= c <= '9'
  }

  predicate IsHexChar(c: char)
  {
    IsDigitChar(c) || 'a' <= c <= 'f' || 'A' <= c <= 'F'
  }

  predicate AllDigits(s: seq<char>)
  {
    forall i | 0 <= i < |s| :: IsDigitChar(s[i])
  }

  /** The character `%d` and `%x` print for a digit value below 10. */
  function DigitChar(d: nat): (c: char)
    requires d < 10
    ensures IsDigitChar(c)
  {
    ('0' as int + d) as char
  }

  /** The lowercase hexadecimal digit `%x` prints for a value below 16. */
  function HexChar(d: nat): (c: char)
    requires d < 16
    ensures IsHexChar(c) && !('A' <= c <= 'F')
  {
    if d < 10 then DigitChar(d) else ('a' as int + (d - 10)) as char
  }

  /** The lowercase form of a hexadecimal digit. */
  function LowerHex(c: char): char
  {
    if 'A' <= c <= 'F' then (c as int + 32) as char else c
  }

  /** `char_to_int`: the value of a decimal digit, the inverse of `DigitChar`. */
  function DigitValue(c: char): (d: nat)
    requires IsDigitChar(c)
    ensures d < 10 && DigitChar(d) == c
  {
    c as int - '0' as int
  }

  /** `hexa_to_int`: 0-9, then a-f and A-F as 10 to 15; the inverse of `HexChar` up to letter case. */
  function HexValue(c: char): (d: nat)
    requires IsHexChar(c)
    ensures d < 16 && HexChar(d) == LowerHex(c)
    ensures IsDigitChar(c) ==> d == DigitValue(c)
  {
    if IsDigitChar(c) then DigitValue(c)
    else if 'a' <= c <= 'f' then c as int - 'a' as int + 10
    else c as int - 'A' as int + 10
  }

  lemma HexValueOfHexChar(d: nat)
    requires d < 16
    ensures HexValue(HexChar(d)) == d
  {
  }

  /** The value the digit run `ds` builds when read left to right on top of `acc`. */
  function Horner(acc: int, ds: seq<char>): int
    requires AllDigits(ds)
    decreases |ds|
  {
    if |ds| == 0 then acc else Horner(acc * 10 + DigitValue(ds[0]), ds[1..])
  }

  lemma {:induction false} HornerAppend(acc: int, ds: seq<char>, c: char)
    requires AllDigits(ds) && IsDigitChar(c)
    ensures AllDigits(ds + [c])
    ensures Horner(acc, ds + [c]) == Horner(acc, ds) * 10 + DigitValue(c)
    decreases |ds|
  {
    if |ds| > 0 {
      assert (ds + [c])[1..] == ds[1..] + [c];
      HornerAppend(acc * 10 + DigitValue(ds[0]), ds[1..], c);
    }
  }

  /** Reading more digits never makes a non-negative value smaller. */
  lemma {:induction false} HornerGrows(acc: int, ds: seq<char>)
    requires acc >= 0 && AllDigits(ds)
    ensures Horner(acc, ds) >= acc
    decreases |ds|
  {
    if |ds| > 0 {
      HornerGrows(acc * 10 + DigitValue(ds[0]), ds[1..]);
    }
  }

  /** `%d` of a non-negative value: its decimal digits, without leading zeros. */
  function Decimal(n: nat): (s: seq<char>)
    ensures |s| >= 1 && AllDigits(s)
    ensures |s| > 1 ==> s[0] != '0'
  {
    if n < 10 then [DigitChar(n)] else Decimal(n / 10) + [DigitChar(n % 10)]
  }

  /** Decimal printing and left-to-right digit reading are inverse. */
  lemma {:induction false} HornerDecimal(n: nat)
    ensures Horner(0, Decimal(n)) == n
  {
    if n >= 10 {
      HornerDecimal(n / 10);
      HornerAppend(0, Decimal(n / 10), DigitChar(n % 10));
    }
  }

  /** `%d`: an optional minus sign, then the decimal digits of the magnitude. */
  function IntToString(n: int): (s: seq<char>)
    ensures |s| >= 1
    ensures n >= 0 ==> AllDigits(s) && Horner(0, s) == n
    ensures n < 0 ==> |s| >= 2 && s[0] == '-' && AllDigits(s[1..]) && Horner(0, s[1..]) == -n
  {
    HornerDecimal(if n < 0 then -n else n);
    if n < 0 then "-" + Decimal(-n) else Decimal(n)
  }

  /** `%02x` of a byte: exactly two lowercase hexadecimal digits, high nibble first. */
  function Hex2(b: nat): (s: seq<char>)
    requires b < 256
    ensures |s| == 2 && IsHexChar(s[0]) && IsHexChar(s[1])
    ensures 16 * HexValue(s[0]) + HexValue(s[1]) == b
  {
    HexValueOfHexChar(b / 16);
    HexValueOfHexChar(b % 16);
    [HexChar(b / 16), HexChar(b % 16)]
  }
}
