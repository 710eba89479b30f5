/** The m:ss timer text of the typing screens. */
module Clock {
  import opened Wrappers

  predicate IsDigit(c: char) { '0' <= c <= '9' }

  predicate AllDigits(s: string) { forall i :: 0 <= i < |s| ==> IsDigit(s[i]) }

  function DigitChar(d: nat): (c: char)
    requires d < 10
    ensures IsDigit(c)
  {
    (('0' as int) + d) as char
  }

  function DigitValue(c: char): nat
    requires IsDigit(c)
  {
    (c as int) - ('0' as int)
  }

  /** The value of a string of decimal digits. */
  function DigitsValue(s: string): nat
    requires AllDigits(s)
  {
    if s == [] then 0 else DigitsValue(s[..|s| - 1]) * 10 + DigitValue(s[|s| - 1])
  }

  /** Number.prototype.toString for a natural number: decimal digits, no leading zero. */
  function NatToString(n: nat): (s: string)
    ensures |s| >= 1 && AllDigits(s) && DigitsValue(s) == n
    ensures |s| > 1 ==> s[0] != '0'
    ensures n < 10 ==> |s| == 1
    ensures 10 <= n < 100 ==> |s| == 2 && s[0] == DigitChar(n / 10)
  {
    if n < 10 then [DigitChar(n)]
    else
      var r := NatToString(n / 10) + [DigitChar(n % 10)];
      assert r[..|r| - 1] == NatToString(n / 10);
      r
  }

  /** String.prototype.padStart(2, '0'). */
  function PadStart2(s: string): string
  {
    if |s| < 2 then seq(2 - |s|, _ => '0') + s else s
  }

  /** A leading zero does not change the value of a digit string. */
  lemma {:induction false} LeadingZero(s: string)
    requires AllDigits(s)
    ensures AllDigits(['0'] + s) && DigitsValue(['0'] + s) == DigitsValue(s)
    decreases |s|
  {
    if s != [] {
      var t := ['0'] + s;
      assert t[..|t| - 1] == ['0'] + s[..|s| - 1];
      LeadingZero(s[..|s| - 1]);
    }
  }

  /**
   * Reads a "m:ss" text back into seconds: digits, a colon, then two digits worth less than 60.
   * None for any other text.
   */
  function ParseTime(t: string): (r: Option<nat>)
    ensures r.Some? ==> |t| >= 4 && t[|t| - 3] == ':' && AllDigits(t[..|t| - 3]) && AllDigits(t[|t| - 2..])
    ensures r.Some? ==> r.value / 60 == DigitsValue(t[..|t| - 3]) && r.value % 60 == DigitsValue(t[|t| - 2..])
  {
    if |t| >= 4 && t[|t| - 3] == ':' && AllDigits(t[..|t| - 3]) && AllDigits(t[|t| - 2..])
       && t[|t| - 2] <= '5'
    then
      SecondsBelowSixty(t[|t| - 2..]);
      Some(DigitsValue(t[..|t| - 3]) * 60 + DigitsValue(t[|t| - 2..]))
    else None
  }

  /** Two digits whose first is at most 5 are worth less than sixty. */
  lemma SecondsBelowSixty(s: string)
    requires |s| == 2 && AllDigits(s) && s[0] <= '5'
    ensures DigitsValue(s) < 60
  {
    assert s[..1] == [s[0]] && s[..1][..0] == [];
    assert DigitsValue(s[..1]) == DigitValue(s[0]);
    assert DigitsValue(s) == DigitsValue(s[..1]) * 10 + DigitValue(s[1]);
  }

  /**
   * formatTime: the minutes, a colon, and the remaining seconds padded to two digits.
   * Reading the text back gives the seconds, so the display never confuses two times.
   */
  function FormatTime(seconds: nat): (t: string)
    ensures ParseTime(t) == Some(seconds)
    ensures |t| >= 4 && t[|t| - 3] == ':' && t[..|t| - 3] == NatToString(seconds / 60)
  {
    var m := NatToString(seconds / 60);
    var s := NatToString(seconds % 60);
    var p := PadStart2(s);
    PadFacts(seconds % 60);
    var t := m + ":" + p;
    assert t[..|t| - 3] == m && t[|t| - 2..] == p && t[|t| - 3] == ':';
    t
  }

  lemma PadFacts(n: nat)
    requires n < 60
    ensures |PadStart2(NatToString(n))| == 2 && AllDigits(PadStart2(NatToString(n)))
    ensures DigitsValue(PadStart2(NatToString(n))) == n
    ensures PadStart2(NatToString(n))[0] <= '5'
  {
    var s := NatToString(n);
    if n < 10 {
      assert PadStart2(s) == ['0'] + s;
      LeadingZero(s);
    }
  }
}
