/** `WinScreenState.format_time`: a match time in seconds shown as minutes and seconds,
    `f"{minutes:02d}:{seconds:02d}"` with `minutes = int(s // 60)` and
    `seconds = int(s % 60)`. */
module WinScreen {

  function DigitChar(d: int): (c: char)
    requires 0 <= d < 10
    ensures '0' <= c <= '9' && c as int - '0' as int == d
  {
    (d + '0' as int) as char
  }

  predicate AllDigits(s: string)
  {
    forall i :: 0 <= i < |s| ==> '0' <= s[i] <= '9'
  }

  /** The decimal digits of `n`, without leading zeros. */
  function Digits(n: nat): (s: string)
    ensures |s| >= 1 && AllDigits(s)
    ensures (n < 10 <==> |s| == 1) && (10 <= n < 100 <==> |s| == 2)
  {
    if n < 10 then [DigitChar(n)] else Digits(n / 10) + [DigitChar(n % 10)]
  }

  /** Python's `str` of an int: a minus sign before the digits of a negative number. */
  function Decimal(n: int): (s: string)
  {
    if n < 0 then "-" + Digits(-n) else Digits(n)
  }

  /** The `02d` format: zero-padded to two characters. The sign counts toward the width,
      so a negative number is never padded. */
  function Pad2(n: int): (s: string)
    ensures |s| >= 2 && (0 <= n < 100 <==> |s| == 2 && s[0] != '-')
  {
    if 0 <= n < 10 then "0" + Digits(n) else Decimal(n)
  }

  /** `int(s // 60)`: Python floor division of a float, then the conversion to int. */
  function Minutes(s: real): (m: int)
  {
    (s / 60.0).Floor
  }

  /** `int(s % 60)`: Python's float modulo takes the sign of the divisor, so the remainder
      lies in [0, 60) and its truncation is its floor. */
  function Seconds(s: real): (secs: int)
    ensures 0 <= secs <= 59
    ensures 60 * Minutes(s) + secs == s.Floor
  {
    var rem := s - 60.0 * Minutes(s) as real;
    assert 0.0 <= rem < 60.0;
    rem.Floor
  }

  function FormatTime(s: real): (r: string)
    ensures |r| >= 5 && r[|r| - 3] == ':'
  {
    Pad2(Minutes(s)) + ":" + Pad2(Seconds(s))
  }

  /** Reads a string of digits back as a number. */
  function ParseDigits(s: string): (n: nat)
    requires AllDigits(s)
  {
    if |s| == 0 then 0
    else ParseDigits(s[..|s| - 1]) * 10 + (s[|s| - 1] as int - '0' as int)
  }

  /** Reading the digits of a number gives the number back. */
  lemma {:induction false} ParseDigitsRoundTrip(n: nat)
    ensures ParseDigits(Digits(n)) == n
  {
    if n >= 10 {
      var s := Digits(n);
      assert s[..|s| - 1] == Digits(n / 10);
      ParseDigitsRoundTrip(n / 10);
    }
  }

  /** On the numbers a clock shows, the padded form is two digits that read back as the
      number. */
  lemma Pad2RoundTrip(n: int)
    requires 0 <= n < 100
    ensures |Pad2(n)| == 2 && AllDigits(Pad2(n)) && ParseDigits(Pad2(n)) == n
  {
    ParseDigitsRoundTrip(n);
    if n < 10 {
      var s := Pad2(n);
      assert s[..1] == "0";
      assert ParseDigits(s[..1]) == 0;
    }
  }

  /** For a match shorter than 100 minutes the text is exactly `MM:SS`: five characters,
      the colon in the middle, and the two fields read back as the minutes and the seconds,
      which together give the whole seconds elapsed. */
  lemma FormatTimeRoundTrip(s: real)
    requires 0.0 <= s < 6000.0
    ensures var r := FormatTime(s);
            |r| == 5 && r[2] == ':' && AllDigits(r[..2]) && AllDigits(r[3..]) &&
            ParseDigits(r[..2]) == Minutes(s) && ParseDigits(r[3..]) == Seconds(s) &&
            60 * ParseDigits(r[..2]) + ParseDigits(r[3..]) == s.Floor
  {
    var r := FormatTime(s);
    assert 0 <= Minutes(s) < 100;
    Pad2RoundTrip(Minutes(s));
    Pad2RoundTrip(Seconds(s));
    assert r[..2] == Pad2(Minutes(s));
    assert r[3..] == Pad2(Seconds(s));
  }
}
