/** Hexadecimal digits in text, one byte a character. */
module Hex {
  import opened Bytes

  /** The value of a digit of either case. */
  function DigitValue(c: byte): Option<nat> {
    if 48 <= c <= 57 then Some(c - 48)
    else if 65 <= c <= 70 then Some(c - 55)
    else if 97 <= c <= 102 then Some(c - 87)
    else None
  }

  predicate IsDigit(c: byte) { DigitValue(c).Some? }

  /** The digit a printer with capital letters uses. */
  function Digit(v: nat): (c: byte)
    requires v < 16
    ensures DigitValue(c) == Some(v)
  {
    if v < 10 then 48 + v else 55 + v
  }

  /** printf's %X. */
  function Print(n: nat): seq<byte> {
    if n < 16 then [Digit(n)] else Print(n / 16) + [Digit(n % 16)]
  }

  /** The number the digits in front of s continue, and what follows them. */
  function ReadOn(s: seq<byte>, so: nat): (nat, seq<byte>) {
    if s != [] && IsDigit(s[0]) then ReadOn(s[1..], 16 * so + DigitValue(s[0]).value) else (so, s)
  }

  /** Printed digits are read back, whatever follows. */
  lemma {:induction false} PrintedReadOn(n: nat, rest: seq<byte>)
    ensures ReadOn(Print(n) + rest, 0) == ReadOn(rest, n)
  {
    hide DigitValue, Digit;
    var last := [Digit(n % 16)] + rest;
    assert last[1..] == rest;
    if n < 16 {
      assert Print(n) + rest == last;
      assert ReadOn(last, 0) == ReadOn(rest, n);
    } else {
      assert Print(n) + rest == Print(n / 16) + last;
      PrintedReadOn(n / 16, last);
      assert ReadOn(last, n / 16) == ReadOn(rest, 16 * (n / 16) + n % 16);
    }
  }

  lemma {:induction false} PrintsDigits(n: nat)
    ensures |Print(n)| >= 1 && IsDigit(Print(n)[0])
  {
    hide DigitValue, Digit;
    if n >= 16 {
      PrintsDigits(n / 16);
    }
  }
}
