/**
 * The two interval timers of the wizard, as values: the impact count-up on
 * step 4 and the offer countdown on step 12. One firing of an interval is one
 * application of a tick function; a stopped timer never fires again.
 */
module Timers {
  import opened Strings

  /** The impact animation stops itself once this many days have been counted. */
  const ImpactDays: int := 30

  /** The offer countdown starts at ten minutes. */
  const OfferSeconds: int := 600

  /** The impact interval: whether it is set, and the days counted by its current run. */
  datatype ImpactTimer = ImpactTimer(running: bool, days: int)

  /** One firing of the impact interval: count one more day, then clear the interval once
      thirty days are reached or the wizard is no longer on step 4. */
  function NextImpact(t: ImpactTimer, onImpactStep: bool): (r: ImpactTimer)
    ensures !t.running ==> r == t
    ensures t.running ==> r.days == t.days + 1
    ensures r.running ==> onImpactStep && r.days < ImpactDays
    ensures t.running && onImpactStep && t.days + 1 < ImpactDays ==> r.running
  {
    if !t.running then t
    else
      var days := t.days + 1;
      ImpactTimer(!(days >= ImpactDays || !onImpactStep), days)
  }

  /** `n` firings of the impact interval while the wizard stays on step 4. */
  function ImpactAfter(t: ImpactTimer, n: nat): ImpactTimer {
    if n == 0 then t else NextImpact(ImpactAfter(t, n - 1), true)
  }

  /** A run that has counted `d` days stops after exactly `30 - d` more firings, with 30
      days counted, and then stays stopped. */
  lemma {:induction false} ImpactRunLength(d: int, n: nat)
    requires 0 <= d < ImpactDays
    ensures ImpactAfter(ImpactTimer(true, d), n)
            == if d + n < ImpactDays then ImpactTimer(true, d + n) else ImpactTimer(false, ImpactDays)
  {
    if n > 0 {
      ImpactRunLength(d, n - 1);
    }
  }

  /** What the offer timer element shows. */
  datatype OfferDisplay =
    | Untouched                               // the markup the page was loaded with
    | Countdown(clock: string, urgent: bool)  // mm:ss, drawn in red under a minute
    | Expired                                 // the "offer expired" notice

  /** The offer interval: whether it is set, the `seconds` its closure counts down, and
      what the timer element shows. */
  datatype OfferTimer = OfferTimer(running: bool, seconds: int, display: OfferDisplay)

  predicate OfferOk(t: OfferTimer) {
    t.running ==> 0 <= t.seconds
  }

  /** `${Math.floor(s / 60)}:${(s % 60).toString().padStart(2, '0')}`. */
  function Clock(seconds: nat): (r: string)
    ensures |r| >= 4 && r[|r| - 3] == ':'
    ensures seconds < 600 <==> |r| == 4
  {
    var mins, secs := Decimal(seconds / 60), PadStart(Decimal(seconds % 60), 2, '0');
    MinutesBelowTen(seconds);
    DecimalWidth(seconds / 60);
    SecondsReadBack(seconds % 60);
    ClockParts(mins, secs);
    mins + ":" + secs
  }

  /** Under ten minutes exactly when the whole minutes fit in one digit. */
  lemma MinutesBelowTen(seconds: nat)
    ensures seconds / 60 < 10 <==> seconds < 600
  {
  }

  /** Where the minutes, the colon and the seconds sit in a drawn clock. */
  lemma ClockParts(mins: string, secs: string)
    requires |secs| == 2
    ensures var c := mins + ":" + secs;
            |c| == |mins| + 3 && c[..|c| - 3] == mins && c[|c| - 3] == ':' && c[|c| - 2..] == secs
  {
    var c := mins + ":" + secs;
    assert c[..|mins|] == mins;
    assert c[|mins| + 1..] == secs;
  }

  /** The seconds part of the clock: two digits that read back as the seconds. */
  lemma SecondsReadBack(s: nat)
    requires s < 60
    ensures var ss := PadStart(Decimal(s), 2, '0');
            |ss| == 2 && IsDigits(ss) && DigitsValue(ss) == s
  {
    var ss := PadStart(Decimal(s), 2, '0');
    DecimalReadsBack(s);
    if s < 10 {
      assert ss == ['0'] + Decimal(s);
      assert ss[..1] == ['0'];
    } else {
      assert ss == Decimal(s);
      assert Decimal(s / 10) == [DigitChar(s / 10)];
    }
  }

  /** `c` reads as minutes, a colon and two digits of seconds below 60, which together
      make up `seconds`. */
  predicate ShowsTime(c: string, seconds: nat) {
    && |c| >= 4 && c[|c| - 3] == ':'
    && IsDigits(c[..|c| - 3]) && IsDigits(c[|c| - 2..])
    && DigitsValue(c[|c| - 2..]) < 60
    && DigitsValue(c[..|c| - 3]) * 60 + DigitsValue(c[|c| - 2..]) == seconds
  }

  /** The clock reads back as the seconds it was drawn from. */
  lemma ClockReadsBack(seconds: nat)
    ensures ShowsTime(Clock(seconds), seconds)
  {
    var m, s := seconds / 60, seconds % 60;
    var mins, secs := Decimal(m), PadStart(Decimal(s), 2, '0');
    DecimalReadsBack(m);
    SecondsReadBack(s);
    ClockParts(mins, secs);
    assert Clock(seconds) == mins + ":" + secs;
  }

  /** One firing of the offer interval: draw the clock for the current `seconds`, count
      down one second, and once below zero clear the interval and show the notice. */
  function NextOffer(t: OfferTimer): (r: OfferTimer)
    requires OfferOk(t)
    ensures OfferOk(r)
    ensures !t.running ==> r == t
    ensures t.running ==> r.seconds == t.seconds - 1
    ensures t.running && t.seconds > 0 ==> r.running && r.display == Countdown(Clock(t.seconds), t.seconds < 60)
    ensures t.running && t.seconds == 0 ==> !r.running && r.display == Expired
  {
    if !t.running then t
    else
      var shown := Countdown(Clock(t.seconds), t.seconds < 60);
      var seconds := t.seconds - 1;
      if seconds < 0 then OfferTimer(false, seconds, Expired) else OfferTimer(true, seconds, shown)
  }

  /** `n` firings of the offer interval. */
  function OfferAfter(t: OfferTimer, n: nat): (r: OfferTimer)
    requires OfferOk(t)
    ensures OfferOk(r)
  {
    if n == 0 then t else NextOffer(OfferAfter(t, n - 1))
  }

  /** A countdown at `s` seconds draws s, s-1, ..., 0 on its first s+1 firings; the firing
      that draws 0:00 shows the notice and clears the interval, and later firings change
      nothing. */
  lemma {:induction false} OfferRun(s: nat, shown: OfferDisplay, n: nat)
    ensures var r := OfferAfter(OfferTimer(true, s, shown), n);
            && (n == 0 ==> r == OfferTimer(true, s, shown))
            && (0 < n <= s ==> r == OfferTimer(true, s - n, Countdown(Clock(s - n + 1), s - n + 1 < 60)))
            && (n > s ==> r == OfferTimer(false, -1, Expired))
  {
    if n > 0 {
      OfferRun(s, shown, n - 1);
    }
  }

  /** From a fresh start at 600 seconds: 600 firings leave the clock at 0:01 with the
      interval still set; the 601st draws 0:00, expires and stops; nothing fires after. */
  lemma OfferExpiresOnFiring601(shown: OfferDisplay, n: nat)
    ensures OfferAfter(OfferTimer(true, OfferSeconds, shown), 600).running
    ensures OfferAfter(OfferTimer(true, OfferSeconds, shown), 600).display == Countdown(Clock(1), true)
    ensures n >= 601 ==> OfferAfter(OfferTimer(true, OfferSeconds, shown), n) == OfferTimer(false, -1, Expired)
  {
    OfferRun(OfferSeconds, shown, 600);
    OfferRun(OfferSeconds, shown, n);
  }
}
