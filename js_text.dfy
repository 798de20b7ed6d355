/**
 * The string operations the clock displays use: `String(n)` /
 * `n.toString()` of an integer and `padStart(2, "0")`, and the
 * "HH:MM" template built from them.
 */
module JsText {

  /** The character of a decimal digit. */
  function DigitChar(d: nat): (c: char)
    requires d < 10
    ensures '0' <= c <= '9' && DigitValue(c) == d
  {
    ('0' as int + d) as char
  }

  /** The value of a digit character: the inverse of `DigitChar`. */
  function DigitValue(c: char): int {
    c as int - '0' as int
  }

  predicate IsDigit(c: char) {
    '0' <= c <= '9'
  }

  /** Decimal digits of a non-negative integer, most significant first, without leading zeros. */
  function NatToString(n: nat): (r: string)
    ensures 1 <= |r|
    ensures forall i :: 0 <= i < |r| ==> IsDigit(r[i])
    ensures |r| == 1 <==> n < 10
    ensures 10 <= n ==> r[0] != '0'
    decreases n
  {
    if n < 10 then [DigitChar(n)] else NatToString(n / 10) + [DigitChar(n % 10)]
  }

  /** `String(i)`: a minus sign before the digits of a negative integer. */
  function IntToString(i: int): (r: string)
    ensures 0 <= i ==> DigitsValue(r) == i && (forall k :: 0 <= k < |r| ==> IsDigit(r[k]))
    ensures i < 0 ==> 2 <= |r| && r[0] == '-' && DigitsValue(r[1..]) == -i
  {
    NatToStringValue(if i < 0 then -i else i);
    if i < 0 then "-" + NatToString(-i) else NatToString(i)
  }

  /** The number a string of decimal digits denotes. */
  function DigitsValue(s: string): int
    decreases |s|
  {
    if s == [] then 0 else DigitsValue(s[..|s| - 1]) * 10 + DigitValue(s[|s| - 1])
  }

  /** Reading the digits back gives the number: `NatToString` loses nothing. */
  lemma {:induction false} NatToStringValue(n: nat)
    ensures DigitsValue(NatToString(n)) == n
    decreases n
  {
    var s := NatToString(n);
    if n >= 10 {
      NatToStringValue(n / 10);
      assert s[..|s| - 1] == NatToString(n / 10);
    }
  }

  /** `s.padStart(len, fill)`: fill on the left up to length `len`; a longer string is left alone. */
  function PadStart(s: string, len: nat, fill: char): (r: string)
    ensures |r| == if |s| < len then len else |s|
    ensures r[|r| - |s|..] == s
    ensures forall i :: 0 <= i < |r| - |s| ==> r[i] == fill
  {
    if |s| < len then seq(len - |s|, _ => fill) + s else s
  }

  /** A number below 100 padded to two places is its tens digit and its units digit. */
  lemma TwoDigits(n: nat)
    requires n < 100
    ensures PadStart(IntToString(n), 2, '0') == [DigitChar(n / 10), DigitChar(n % 10)]
  {
    if n >= 10 {
      assert NatToString(n / 10) == [DigitChar(n / 10)];
    }
  }

  /** The `${hh}:${mm}` template with both parts zero-padded to two places. */
  function Clock(hours: int, minutes: int): string {
    PadStart(IntToString(hours), 2, '0') + ":" + PadStart(IntToString(minutes), 2, '0')
  }

  /** A padded part below 100 is two digits that read back as the number. */
  lemma TwoDigitsValue(n: nat)
    requires n < 100
    ensures var p := PadStart(IntToString(n), 2, '0');
      |p| == 2 && IsDigit(p[0]) && IsDigit(p[1]) && DigitValue(p[0]) * 10 + DigitValue(p[1]) == n
  {
    TwoDigits(n);
  }

  /** For two-digit parts the clock text is five characters, "HH:MM", and reads back as the parts. */
  lemma ClockShape(hours: int, minutes: int)
    requires 0 <= hours < 100 && 0 <= minutes < 100
    ensures var r := Clock(hours, minutes);
      |r| == 5 && r[2] == ':' && IsDigit(r[0]) && IsDigit(r[1]) && IsDigit(r[3]) && IsDigit(r[4])
      && DigitValue(r[0]) * 10 + DigitValue(r[1]) == hours && DigitValue(r[3]) * 10 + DigitValue(r[4]) == minutes
  {
    TwoDigitsValue(hours);
    TwoDigitsValue(minutes);
    Joined(PadStart(IntToString(hours), 2, '0'), PadStart(IntToString(minutes), 2, '0'));
  }

  lemma Joined(a: string, b: string)
    requires |a| == 2 && |b| == 2
    ensures var r := a + ":" + b;
      |r| == 5 && r[0] == a[0] && r[1] == a[1] && r[2] == ':' && r[3] == b[0] && r[4] == b[1]
  {
  }
}
