/** `src/components/WeeklyDeal.tsx` (and the same `formatTime` of
    `src/components/WeeklyDealPage.tsx`): the countdown to the end of the deal
    week. */
module WeeklyDeal {
  import opened Text

  const MsPerSecond: nat := 1000
  const MsPerMinute: nat := 60 * 1000
  const MsPerHour: nat := 60 * 60 * 1000
  const MsPerDay: nat := 24 * 60 * 60 * 1000

  /** The four units of `formatTime` for a non-negative number of milliseconds. */
  datatype Countdown = Countdown(days: nat, hours: nat, minutes: nat, seconds: nat)

  function Units(ms: nat): (c: Countdown)
    ensures c.seconds < 60 && c.minutes < 60 && c.hours < 24
  {
    Countdown(ms / MsPerDay, (ms / MsPerHour) % 24, (ms / MsPerMinute) % 60, (ms / MsPerSecond) % 60)
  }

  /** The units add back up to the whole seconds left. */
  lemma UnitsReconstruct(ms: nat)
    ensures var c := Units(ms);
      c.days * 86400 + c.hours * 3600 + c.minutes * 60 + c.seconds == ms / 1000
  {
    var t := ms / 1000;
    var m := t / 60;
    var h := m / 60;
    assert ms / MsPerMinute == m;
    assert ms / MsPerHour == h;
    assert ms / MsPerDay == h / 24;
  }

  /** `` `${days}d ${hours}h ${minutes}m ${seconds}s` ``. */
  function FormatTime(ms: nat): (s: string)
    ensures ReadsAs(s, Units(ms))
  {
    RenderReadsAs(Units(ms));
    Render(Units(ms))
  }

  function Render(c: Countdown): string {
    NatToString(c.days) + "d " + NatToString(c.hours) + "h " + NatToString(c.minutes) + "m "
      + NatToString(c.seconds) + "s"
  }

  lemma AtMostTwoDigits(n: nat)
    requires n < 100
    ensures |NatToString(n)| <= 2
  {
    if n >= 10 {
      assert NatToString(n / 10) == [DigitChar(n / 10)];
    }
  }

  /** The text `<d>d <h>h <m>m <s>s` whose numbers read back as the four units. */
  ghost predicate ReadsAs(t: string, c: Countdown) {
    exists d, h, m, sec ::
      && t == d + "d " + h + "h " + m + "m " + sec + "s"
      && AllDigits(d) && AllDigits(h) && AllDigits(m) && AllDigits(sec)
      && 1 <= |h| <= 2 && 1 <= |m| <= 2 && 1 <= |sec| <= 2
      && ParseDigits(d) == c.days && ParseDigits(h) == c.hours
      && ParseDigits(m) == c.minutes && ParseDigits(sec) == c.seconds
  }

  lemma ReadsAsIntro(t: string, d: string, h: string, m: string, sec: string, c: Countdown)
    requires t == d + "d " + h + "h " + m + "m " + sec + "s"
    requires AllDigits(d) && AllDigits(h) && AllDigits(m) && AllDigits(sec)
    requires 1 <= |h| <= 2 && 1 <= |m| <= 2 && 1 <= |sec| <= 2
    requires ParseDigits(d) == c.days && ParseDigits(h) == c.hours
    requires ParseDigits(m) == c.minutes && ParseDigits(sec) == c.seconds
    ensures ReadsAs(t, c)
  {
  }

  /** Each unit prints as a numeral that reads back as the unit. */
  lemma NumeralsOk(c: Countdown)
    requires c.hours < 100 && c.minutes < 100 && c.seconds < 100
    ensures ParseDigits(NatToString(c.days)) == c.days
    ensures ParseDigits(NatToString(c.hours)) == c.hours && 1 <= |NatToString(c.hours)| <= 2
    ensures ParseDigits(NatToString(c.minutes)) == c.minutes && 1 <= |NatToString(c.minutes)| <= 2
    ensures ParseDigits(NatToString(c.seconds)) == c.seconds && 1 <= |NatToString(c.seconds)| <= 2
  {
    ParseNatToString(c.days);
    ParseNatToString(c.hours);
    ParseNatToString(c.minutes);
    ParseNatToString(c.seconds);
    AtMostTwoDigits(c.hours);
    AtMostTwoDigits(c.minutes);
    AtMostTwoDigits(c.seconds);
  }

  lemma RenderReadsAs(c: Countdown)
    requires c.hours < 100 && c.minutes < 100 && c.seconds < 100
    ensures ReadsAs(Render(c), c)
  {
    NumeralsOk(c);
    ReadsAsIntro(Render(c), NatToString(c.days), NatToString(c.hours), NatToString(c.minutes),
      NatToString(c.seconds), c);
  }

  /** Reading the countdown text back gives the units, so the text loses nothing. */
  lemma FormatTimeShape(ms: nat)
    ensures ReadsAs(FormatTime(ms), Units(ms))
  {
    RenderReadsAs(Units(ms));
  }
}
