/** The countdown shown during a lesson (src/components/Timer.tsx): remaining
    seconds as `m:ss` and the warning colour for the last half minute. The
    remaining time is never negative (the lesson controller clamps it at 0). */
module Timer {
  import opened Wrappers
  import opened Text

  /** At or below this many seconds the bar turns amber. */
  const WarningSeconds: nat := 30

  /** `Math.floor(r / 60)` and `r % 60`: whole minutes and leftover seconds. */
  function Split(r: nat): (ms: (nat, nat))
    ensures ms.0 * 60 + ms.1 == r
    ensures ms.1 < 60
  {
    (r / 60, r % 60)
  }

  /** `seconds.toString().padStart(2, "0")`. */
  function TwoDigits(sec: nat): (r: string)
    requires sec < 60
    ensures |r| == 2 && AllDigits(r)
    ensures ParseDecimal(r) == sec
  {
    var t := NatToString(sec);
    var r := PadStartZero(t, 2);
    assert ParseDecimal(r) == sec by {
      ParseNatToString(sec);
      if |t| < 2 {
        assert r == "0" + t;
        ParseLeadingZero(t);
      }
    }
    r
  }

  /** The `m:ss` text: minutes without padding, a colon, two-digit seconds. */
  function Display(r: nat): (t: string)
    ensures |t| >= 4 && t[|t| - 3] == ':'
    ensures AllDigits(t[..|t| - 3]) && AllDigits(t[|t| - 2..])
  {
    var (m, s) := Split(r);
    var t := NatToString(m) + ":" + TwoDigits(s);
    assert t[..|t| - 3] == NatToString(m);
    assert t[|t| - 2..] == TwoDigits(s);
    t
  }

  /** `isWarning`: the display reads `0:ss` with at most 30 seconds. */
  function IsWarning(r: nat): (w: bool)
    ensures w <==> Split(r).0 == 0 && Split(r).1 <= WarningSeconds
  {
    r <= WarningSeconds
  }

  /** Reads an `m:ss` text back into seconds; the inverse of `Display`. */
  function ParseDisplay(t: string): Option<nat> {
    if |t| >= 4 && t[|t| - 3] == ':' && AllDigits(t[..|t| - 3]) && AllDigits(t[|t| - 2..])
    then Some(ParseDecimal(t[..|t| - 3]) * 60 + ParseDecimal(t[|t| - 2..]))
    else None
  }

  /** The display loses nothing: the seconds can be read back from it. */
  lemma DisplayRoundTrip(r: nat)
    ensures ParseDisplay(Display(r)) == Some(r)
  {
    var (m, s) := Split(r);
    var t := Display(r);
    assert t[..|t| - 3] == NatToString(m);
    assert t[|t| - 2..] == TwoDigits(s);
    ParseNatToString(m);
  }

  /** Different remaining times never show the same text. */
  lemma DisplayInjective(r1: nat, r2: nat)
    requires Display(r1) == Display(r2)
    ensures r1 == r2
  {
    DisplayRoundTrip(r1);
    DisplayRoundTrip(r2);
  }

  /** The minutes field is the unpadded whole minutes (no leading zero once a
      minute remains); the seconds field is exactly two digits, with a leading
      zero below ten. */
  lemma SecondsFieldShape(r: nat)
    ensures var t := Display(r);
            t[..|t| - 3] == NatToString(r / 60)
    ensures r >= 60 ==> Display(r)[0] != '0'
    ensures var t := Display(r);
            t[|t| - 2..] == [DigitChar(r % 60 / 10), DigitChar(r % 60 % 10)]
  {
    var t := Display(r);
    var s := r % 60;
    var mins := NatToString(r / 60);
    assert t == mins + ":" + TwoDigits(s);
    assert t[..|t| - 3] == mins;
    assert t[0] == mins[0];
    var two := TwoDigits(s);
    assert t[|t| - 2..] == two;
    assert ParseDecimal(two) == s;
    assert two[..1] == [two[0]];
    assert ParseDecimal(two) == DigitValue(two[0]) * 10 + DigitValue(two[1]);
    assert two[0] == DigitChar(DigitValue(two[0]));
    assert two[1] == DigitChar(DigitValue(two[1]));
  }

  /** The full session shows "3:00"; an expired one shows "0:00". */
  lemma DisplayExamples()
    ensures Display(180) == "3:00"
    ensures Display(0) == "0:00"
  {
  }

  /** The warning appears once and stays: it holds exactly at and below 30
      seconds, so it is monotone as the countdown falls. */
  lemma WarningMonotone(r1: nat, r2: nat)
    requires r1 <= r2
    ensures IsWarning(r2) ==> IsWarning(r1)
    ensures IsWarning(30) && !IsWarning(31)
  {
  }
}
