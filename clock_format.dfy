/** The elapsed-time text of the recording pages, "MM:SS": `fmt` in
    UI/src/pages/Record.tsx:45-49 and `mmss` in UI/src/pages/Practice.tsx:95-99
    compute the same text, so they are one function here. Elapsed time is
    a whole number of seconds; `Math.floor` of a whole number is itself. */
module ClockFormat {
  import opened Results
  import opened Decimal

  /** `String(k).padStart(2, "0")`: at least two digits, a leading zero
      for a single digit. */
  function Pad2(k: nat): (s: string)
    ensures |s| >= 2 && forall i :: 0 <= i < |s| ==> IsDigit(s[i])
    ensures k < 100 ==> |s| == 2
  {
    var d := DigitString(k);
    if |d| < 2 then ['0'] + d else d
  }

  /** `fmt(sec)` / `mmss(sec)`: minutes, a colon, and the seconds of the minute. */
  function Clock(sec: nat): (s: string)
    ensures |s| >= 5 && s[|s| - 3] == ':'
    ensures sec < 6000 ==> |s| == 5
  {
    Pad2(sec / 60) + ":" + Pad2(sec % 60)
  }

  predicate AllDigits(s: string)
  {
    forall i :: 0 <= i < |s| ==> IsDigit(s[i])
  }

  /** Reads a clock text back into seconds: digits, a colon, two digits
      below 60. */
  function ParseClock(s: string): (r: Option<nat>)
    ensures r.Some? ==> |s| >= 4 && s[|s| - 3] == ':'
  {
    if |s| >= 4 && s[|s| - 3] == ':' && AllDigits(s[..|s| - 3]) && AllDigits(s[|s| - 2..])
       && ParseDigits(s[|s| - 2..]) < 60
    then Some(60 * ParseDigits(s[..|s| - 3]) + ParseDigits(s[|s| - 2..]))
    else None
  }

  /** The padding does not change the value the digits spell. */
  lemma ParsePad2(k: nat)
    ensures ParseDigits(Pad2(k)) == k
  {
    ParseDigitString(k);
    if |DigitString(k)| < 2 {
      ParseLeadingZero(DigitString(k));
    }
  }

  /** The clock text determines the elapsed seconds: reading it back gives them. */
  lemma ClockRoundTrip(sec: nat)
    ensures ParseClock(Clock(sec)) == Some(sec)
  {
    var q, r := sec / 60, sec % 60;
    assert sec == 60 * q + r && r < 60;
    var m, s := Pad2(q), Pad2(r);
    var c := m + ":" + s;
    assert c == Clock(sec);
    assert |s| == 2;
    assert c[..|c| - 3] == m;
    assert c[|c| - 2..] == s;
    ParsePad2(q);
    ParsePad2(r);
    assert ParseClock(c) == Some(60 * q + r);
  }

  /** Different elapsed times show different texts. */
  lemma ClockInjective(a: nat, b: nat)
    requires Clock(a) == Clock(b)
    ensures a == b
  {
    ClockRoundTrip(a);
    ClockRoundTrip(b);
  }
}
