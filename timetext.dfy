/** The "MM:SS" text shown next to the progress bar: whole seconds of a
    duration, as minutes and seconds, each printed with at least two digits. */
module TimeText {
  import Timeline

  function DigitChar(d: nat): (c: char)
    requires d < 10
    ensures '0' <= c <= '9'
  {
    ('0' as int + d) as char
  }

  function DigitValue(c: char): nat {
    if '0' <= c <= '9' then c as int - '0' as int else 0
  }

  /** The decimal digits of `n`, no leading zeros. */
  function Decimal(n: nat): (s: string)
    ensures |s| >= 1 && (n < 10 ==> |s| == 1) && (n >= 10 ==> |s| >= 2) && (n < 100 ==> |s| <= 2)
    ensures forall i :: 0 <= i < |s| ==> '0' <= s[i] <= '9'
    decreases n
  {
    if n < 10 then [DigitChar(n)] else Decimal(n / 10) + [DigitChar(n % 10)]
  }

  /** `n` zero-padded to at least two digits. */
  function Pad2(n: nat): (s: string)
    ensures |s| >= 2 && (n < 100 ==> |s| == 2)
    ensures forall i :: 0 <= i < |s| ==> '0' <= s[i] <= '9'
  {
    if n < 10 then ['0', DigitChar(n)] else Decimal(n)
  }

  /** Reads a string of decimal digits back as a number. */
  function ParseDecimal(s: string): nat
    decreases |s|
  {
    if s == [] then 0 else ParseDecimal(s[..|s| - 1]) * 10 + DigitValue(s[|s| - 1])
  }

  /** The display text of a duration: whole minutes, a colon, then the
      remaining whole seconds. Below 100 minutes it is exactly "MM:SS". */
  function FormatTime(d: Timeline.Millis): (t: string)
    ensures |t| >= 5 && t[|t| - 3] == ':'
    ensures d < 6000000 ==> |t| == 5
    ensures forall i :: 0 <= i < |t| && i != |t| - 3 ==> '0' <= t[i] <= '9'
  {
    var secs := d / 1000;
    Pad2(secs / 60) + ":" + Pad2(secs % 60)
  }

  lemma {:induction false} DecimalRoundTrip(n: nat)
    ensures ParseDecimal(Decimal(n)) == n
    decreases n
  {
    if n >= 10 {
      DecimalRoundTrip(n / 10);
      var s := Decimal(n);
      assert s[..|s| - 1] == Decimal(n / 10);
    }
  }

  lemma Pad2RoundTrip(n: nat)
    ensures ParseDecimal(Pad2(n)) == n
  {
    if n < 10 {
      var s := Pad2(n);
      assert s[..1] == ['0'];
      assert ParseDecimal(['0']) == 0 by {
        assert ['0'][..0] == [];
      }
    } else {
      DecimalRoundTrip(n);
    }
  }

  /** The text is digits, a colon, and exactly two digits of seconds below
      60; reading it back gives the duration's whole seconds. */
  lemma {:induction false} FormatTimeRoundTrip(d: Timeline.Millis)
    ensures var t := FormatTime(d);
            var m := t[..|t| - 3];
            var s := t[|t| - 2..];
            |t| >= 5 && t[|t| - 3] == ':' &&
            (forall i :: 0 <= i < |m| ==> '0' <= m[i] <= '9') &&
            (forall i :: 0 <= i < |s| ==> '0' <= s[i] <= '9') &&
            ParseDecimal(s) < 60 &&
            ParseDecimal(m) * 60 + ParseDecimal(s) == d / 1000
  {
    var secs := d / 1000;
    var mm, ss := Pad2(secs / 60), Pad2(secs % 60);
    var t := FormatTime(d);
    assert t == mm + ":" + ss;
    assert t[..|t| - 3] == mm;
    assert t[|t| - 2..] == ss;
    Pad2RoundTrip(secs / 60);
    Pad2RoundTrip(secs % 60);
  }
}
