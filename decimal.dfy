/** Decimal text of integers: Python's `str()` of an `int`, and the
    zero-padded fixed-width fields of `strftime` (`%Y`, `%m`, `%d`). Each
    formatter has a parser beside it that reads the text back. */
module Decimal {
  import opened Wrappers

  predicate IsDigit(c: char) {
    '0' <= c <= '9'
  }

  predicate AllDigits(s: string) {
    forall i :: 0 <= i < |s| ==> IsDigit(s[i])
  }

  function DigitChar(n: int): (c: char)
    requires 0 <= n < 10
    ensures IsDigit(c)
    ensures c == '0' <==> n == 0
  {
    (('0' as int) + n) as char
  }

  function DigitValue(c: char): (n: int)
    requires IsDigit(c)
    ensures 0 <= n < 10
  {
    c as int - '0' as int
  }

  /** Value of a string of decimal digits; the empty string reads as 0. */
  function ParseDigits(s: string): (n: nat)
    requires AllDigits(s)
    decreases |s|
  {
    if s == [] then 0 else ParseDigits(s[..|s| - 1]) * 10 + DigitValue(s[|s| - 1])
  }

  /** Shortest decimal text of a natural number (no leading zeros). */
  function NatToString(n: nat): (s: string)
    ensures 1 <= |s| && AllDigits(s)
    ensures s[0] == '0' <==> n == 0
    ensures n == 0 ==> s == "0"
    decreases n
  {
    if n < 10 then [DigitChar(n)] else NatToString(n / 10) + [DigitChar(n % 10)]
  }

  /** Python's `str(n)` for an `int`: a minus sign before the digits when negative. */
  function IntToString(n: int): (s: string)
    ensures 1 <= |s| && (IsDigit(s[0]) <==> n >= 0) && (s[0] == '-' <==> n < 0)
    ensures AllDigits(s[1..])
    ensures n > 0 ==> s[0] != '0'
    ensures n < 0 ==> 2 <= |s| && s[1] != '0'
    ensures n == 0 ==> s == "0"
  {
    if n < 0 then "-" + NatToString(-n) else NatToString(n)
  }

  /** Reads back the text `IntToString` produces; anything else is `None`. */
  function ParseInt(s: string): Option<int> {
    if 2 <= |s| && s[0] == '-' && AllDigits(s[1..]) then Some(-(ParseDigits(s[1..]) as int))
    else if 1 <= |s| && AllDigits(s) then Some(ParseDigits(s))
    else None
  }

  /** The low `width` decimal digits of `n`, zero-padded on the left. */
  function Pad(n: nat, width: nat): (s: string)
    ensures |s| == width && AllDigits(s)
    decreases width
  {
    if width == 0 then [] else Pad(n / 10, width - 1) + [DigitChar(n % 10)]
  }

  function Pow10(k: nat): (p: nat)
    ensures p >= 1
  {
    if k == 0 then 1 else 10 * Pow10(k - 1)
  }

  lemma {:induction false} ParseNatToString(n: nat)
    ensures ParseDigits(NatToString(n)) == n
    decreases n
  {
    var s := NatToString(n);
    if n >= 10 {
      ParseNatToString(n / 10);
      assert s[..|s| - 1] == NatToString(n / 10);
    }
  }

  /** `str()` of an int reads back as the same int. */
  lemma IntToStringRoundTrip(n: int)
    ensures ParseInt(IntToString(n)) == Some(n)
  {
    var s := IntToString(n);
    if n < 0 {
      assert s[1..] == NatToString(-n);
      ParseNatToString(-n);
    } else {
      ParseNatToString(n);
    }
  }

  /** A zero-padded field reads back as its number when the number fits the width. */
  lemma {:induction false} PadRoundTrip(n: nat, width: nat)
    requires n < Pow10(width)
    ensures ParseDigits(Pad(n, width)) == n
    decreases width
  {
    if width > 0 {
      var s := Pad(n, width);
      assert s[..|s| - 1] == Pad(n / 10, width - 1);
      PadRoundTrip(n / 10, width - 1);
    }
  }

  /** Two integers whose texts are followed by text not starting with a digit
      can be told apart: the first non-digit ends the number. This is what
      makes the readouts and the caption determine the numbers they show. */
  lemma IntToStringPrefix(a: int, b: int, s: string, t: string)
    requires |s| >= 1 && !IsDigit(s[0]) && |t| >= 1 && !IsDigit(t[0])
    requires IntToString(a) + s == IntToString(b) + t
    ensures a == b && s == t
  {
    var x, y := IntToString(a), IntToString(b);
    assert x == (x + s)[..|x|] == (y + t)[..|y|] == y;
    IntToStringRoundTrip(a);
    IntToStringRoundTrip(b);
    assert s == (x + s)[|x|..] == (y + t)[|y|..] == t;
  }
}
