/**
  Player statistics: health, orbs collected and the countdown timer shown
  on the HUD. Times are seconds, as reals; the frame time is a parameter.
 */
module Player {

  const StartHealth := 100
  /** Ten minutes, in seconds. */
  const TimerStart: real := 600.0
  const TimeLeftPrefix := "Time Remaining: "

  /** C#'s `(int)` conversion of a float: truncation toward zero. */
  function Trunc(x: real): int
  {
    if x >= 0.0 then x.Floor else -((-x).Floor)
  }

  /** C#'s float remainder `x % y`: `x - y * trunc(x / y)`, with the sign of `x`. */
  function FloatRem(x: real, y: real): real
    requires y != 0.0
  {
    x - y * (Trunc(x / y) as real)
  }

  function DigitChar(d: nat): char
    requires d < 10
  {
    "0123456789"[d]
  }

  function DigitValue(c: char): nat
  {
    if '0' <= c <= '9' then (c as int - '0' as int) else 0
  }

  /** The decimal digits of `n`, without leading zeros. */
  function NatToString(n: nat): string
  {
    if n < 10 then [DigitChar(n)] else NatToString(n / 10) + [DigitChar(n % 10)]
  }

  /** Reads a string of decimal digits back as a number. */
  function ParseNat(s: string): nat
  {
    if s == [] then 0 else ParseNat(s[..|s| - 1]) * 10 + DigitValue(s[|s| - 1])
  }

  /** NatToString writes exactly the number it is given. */
  lemma {:induction false} ParseNatToString(n: nat)
    ensures ParseNat(NatToString(n)) == n
    ensures 1 <= |NatToString(n)|
  {
    if n >= 10 {
      ParseNatToString(n / 10);
      var s := NatToString(n / 10) + [DigitChar(n % 10)];
      assert s[..|s| - 1] == NatToString(n / 10);
    }
  }

  /** `n.ToString("D2")`: at least two digits, padded with zeros, after a minus sign if negative. */
  function FormatD2(n: int): string
  {
    var digits := NatToString(if n < 0 then -n else n);
    var padded := if |digits| < 2 then "0" + digits else digits;
    if n < 0 then "-" + padded else padded
  }

  /** A leading zero does not change the number a digit string reads as. */
  lemma {:induction false} ParseNatLeadingZero(s: string)
    ensures ParseNat("0" + s) == ParseNat(s)
  {
    if s != [] {
      var t := "0" + s;
      assert t[..|t| - 1] == "0" + s[..|s| - 1];
      ParseNatLeadingZero(s[..|s| - 1]);
    }
  }

  /** A non-negative number formatted with D2 has at least two digits and reads back as itself. */
  lemma FormatD2RoundTrip(n: int)
    requires 0 <= n
    ensures 2 <= |FormatD2(n)|
    ensures ParseNat(FormatD2(n)) == n
  {
    ParseNatToString(n);
    ParseNatLeadingZero(NatToString(n));
  }

  /** D2 writes at least two characters, whatever the sign. */
  lemma FormatD2Length(n: int)
    ensures 2 <= |FormatD2(n)|
  {
    ParseNatToString(if n < 0 then -n else n);
  }

  /** Below 100, D2 writes the tens digit and then the units digit. */
  lemma FormatD2TwoDigits(n: int)
    requires 0 <= n < 100
    ensures FormatD2(n) == [DigitChar(n / 10), DigitChar(n % 10)]
  {
    if n >= 10 {
      assert NatToString(n) == NatToString(n / 10) + [DigitChar(n % 10)];
    }
  }

  /**
    For a non-negative time, the whole minutes and the whole seconds past
    them, as the HUD label computes them, are those of its whole seconds.
   */
  lemma MinutesAndSeconds(t: real)
    requires 0.0 <= t
    ensures Trunc(t / 60.0) == t.Floor / 60
    ensures Trunc(FloatRem(t, 60.0)) == t.Floor % 60
  {
    var f := t.Floor;
    var q, r := f / 60, f % 60;
    assert f == 60 * q + r && 0 <= r < 60;
    assert (q as real) * 60.0 <= t < (q as real) * 60.0 + 60.0;
    assert q as real <= t / 60.0 < (q + 1) as real;
    assert (t / 60.0).Floor == q;
    var rem := t - 60.0 * (q as real);
    assert r as real <= rem < (r + 1) as real;
    assert FloatRem(t, 60.0) == rem;
  }

  /** The remaining time after one HandleTimeCountdown of `deltaTime`. */
  function CountdownStep(started: bool, remaining: real, deltaTime: real): real
  {
    if !started || remaining <= 0.0 then remaining
    else if remaining - deltaTime <= 0.0 then 0.0
    else remaining - deltaTime
  }

  /** The remaining time after one HandleTimeCountdown per frame time in `deltas`, in order. */
  function Countdown(started: bool, remaining: real, deltas: seq<real>): real
    decreases |deltas|
  {
    if deltas == [] then remaining
    else Countdown(started, CountdownStep(started, remaining, deltas[0]), deltas[1..])
  }

  /** The total of the frame times. */
  function Sum(deltas: seq<real>): real
    decreases |deltas|
  {
    if deltas == [] then 0.0 else deltas[0] + Sum(deltas[1..])
  }

  /** The label outside the not-started special case: `(int)(t / 60)` and `(int)(t % 60)`, each as D2. */
  function RunningLabel(t: real): string
  {
    TimeLeftPrefix + FormatD2(Trunc(t / 60.0)) + ":" + FormatD2(Trunc(FloatRem(t, 60.0)))
  }

  class PlayerStats {
    var currentHealth: int
    var orbsCollected: int
    var timeRemaining: real
    var timerStarted: bool

    /** Before Initialise everything has its default value. */
    constructor ()
      ensures currentHealth == 0 && orbsCollected == 0 && timeRemaining == 0.0 && !timerStarted
    {
      currentHealth, orbsCollected, timeRemaining, timerStarted := 0, 0, 0.0, false;
    }

    /**
      The HUD text for the timer: the prefix, then at least five characters.
      For a non-negative time these are the MM:SS fields (TimeLeftForm); a
      negative time, reachable through AddTime, prints minus signs.
     */
    function TimeLeft(): (text: string)
      reads this
      ensures |TimeLeftPrefix| + 5 <= |text| && text[..|TimeLeftPrefix|] == TimeLeftPrefix
    {
      if !timerStarted && timeRemaining == 0.0 then TimeLeftPrefix + "10:00"
      else
        FormatD2Length(Trunc(timeRemaining / 60.0));
        FormatD2Length(Trunc(FloatRem(timeRemaining, 60.0)));
        RunningLabel(timeRemaining)
    }

    /** The time is up exactly when no time remains; from then on the countdown leaves the time alone. */
    predicate IsTimeUp()
      reads this
      ensures IsTimeUp() ==> forall d :: CountdownStep(timerStarted, timeRemaining, d) == timeRemaining
    {
      timeRemaining <= 0.0
    }

    /** Full health, no orbs, ten minutes on a timer that is not running. */
    method Initialise()
      modifies this
      ensures currentHealth == StartHealth && orbsCollected == 0
      ensures timeRemaining == TimerStart && !timerStarted
    {
      currentHealth := StartHealth;
      orbsCollected := 0;
      timeRemaining := TimerStart;
      timerStarted := false;
    }

    /**
      Takes `amount` off the health, with no lower bound; `defeated` tells
      whether the defeat line was logged, which happens exactly when no
      health is left.
     */
    method TakeDamage(amount: int) returns (defeated: bool)
      modifies this
      ensures currentHealth == old(currentHealth) - amount
      ensures defeated <==> currentHealth <= 0
      ensures orbsCollected == old(orbsCollected) && timeRemaining == old(timeRemaining)
      ensures timerStarted == old(timerStarted)
    {
      currentHealth := currentHealth - amount;
      defeated := currentHealth <= 0;
    }

    /** One more orb. */
    method HandleOrbCollection()
      modifies this
      ensures orbsCollected == old(orbsCollected) + 1
      ensures currentHealth == old(currentHealth) && timeRemaining == old(timeRemaining)
      ensures timerStarted == old(timerStarted)
    {
      orbsCollected := orbsCollected + 1;
    }

    /** Restarts the countdown from ten minutes. */
    method StartTimer()
      modifies this
      ensures timeRemaining == TimerStart && timerStarted
      ensures currentHealth == old(currentHealth) && orbsCollected == old(orbsCollected)
    {
      timeRemaining := TimerStart;
      timerStarted := true;
    }

    /**
      One frame of countdown by `deltaTime`: nothing happens unless the timer
      runs and time remains; the time then never drops below zero.
     */
    method HandleTimeCountdown(deltaTime: real)
      modifies this
      ensures !old(timerStarted) || old(timeRemaining) <= 0.0 ==> timeRemaining == old(timeRemaining)
      ensures old(timerStarted) && old(timeRemaining) > 0.0 ==>
        timeRemaining == if old(timeRemaining) - deltaTime <= 0.0 then 0.0 else old(timeRemaining) - deltaTime
      ensures old(timeRemaining) >= 0.0 ==> timeRemaining >= 0.0
      ensures timeRemaining == CountdownStep(old(timerStarted), old(timeRemaining), deltaTime)
      ensures currentHealth == old(currentHealth) && orbsCollected == old(orbsCollected)
      ensures timerStarted == old(timerStarted)
    {
      if !timerStarted || timeRemaining <= 0.0 {
        return;
      }
      timeRemaining := timeRemaining - deltaTime;
      if timeRemaining <= 0.0 {
        timeRemaining := 0.0;
      }
    }

    /** Adds `seconds` (possibly negative) to the remaining time. */
    method AddTime(seconds: real)
      modifies this
      ensures timeRemaining == old(timeRemaining) + seconds
      ensures currentHealth == old(currentHealth) && orbsCollected == old(orbsCollected)
      ensures timerStarted == old(timerStarted)
    {
      timeRemaining := timeRemaining + seconds;
    }

    /** Stops the countdown and keeps the time it shows. */
    method StopTimer()
      modifies this
      ensures !timerStarted && timeRemaining == old(timeRemaining)
      ensures currentHealth == old(currentHealth) && orbsCollected == old(orbsCollected)
    {
      timerStarted := false;
    }
  }

  /**
    A running timer counted down by frames whose times add up to at least
    what remains ends at zero, so the time is up; one that had already run
    out stays where it was.
   */
  lemma {:induction false} CountdownRunsOut(remaining: real, deltas: seq<real>)
    requires forall i :: 0 <= i < |deltas| ==> 0.0 <= deltas[i]
    requires remaining <= Sum(deltas)
    ensures Countdown(true, remaining, deltas) <= 0.0
    ensures 0.0 <= remaining ==> Countdown(true, remaining, deltas) == 0.0
    decreases |deltas|
  {
    if deltas == [] {
      return;
    }
    var next := CountdownStep(true, remaining, deltas[0]);
    if next <= 0.0 {
      assert 0.0 <= remaining ==> next == 0.0;
      CountdownStaysOut(true, next, deltas[1..]);
    } else {
      CountdownRunsOut(next, deltas[1..]);
    }
  }

  /**
    A player whose remaining time is what such a countdown leaves has run
    out of time: IsTimeUp holds.
   */
  lemma TimeUpAfterCountdown(p: PlayerStats, start: real, deltas: seq<real>)
    requires forall i :: 0 <= i < |deltas| ==> 0.0 <= deltas[i]
    requires start <= Sum(deltas)
    requires p.timeRemaining == Countdown(true, start, deltas)
    ensures p.IsTimeUp()
  {
    CountdownRunsOut(start, deltas);
  }

  /** Once no time remains, or while the timer is stopped, frames change nothing. */
  lemma {:induction false} CountdownStaysOut(started: bool, remaining: real, deltas: seq<real>)
    requires !started || remaining <= 0.0
    ensures Countdown(started, remaining, deltas) == remaining
    decreases |deltas|
  {
    if deltas != [] {
      CountdownStaysOut(started, remaining, deltas[1..]);
    }
  }

  /**
    Frames of non-negative length never add time, and never take a
    non-negative time below zero.
   */
  lemma {:induction false} CountdownBounded(started: bool, remaining: real, deltas: seq<real>)
    requires forall i :: 0 <= i < |deltas| ==> 0.0 <= deltas[i]
    ensures Countdown(started, remaining, deltas) <= remaining
    ensures 0.0 <= remaining ==> 0.0 <= Countdown(started, remaining, deltas)
    decreases |deltas|
  {
    if deltas != [] {
      CountdownBounded(started, CountdownStep(started, remaining, deltas[0]), deltas[1..]);
    }
  }

  /**
    Below 100 minutes the label is `Time Remaining: MM:SS`: the whole minutes
    and the seconds past them of the whole seconds remaining, two digits each.
   */
  lemma TimeLeftShowsMinutesAndSeconds(p: PlayerStats)
    requires 0.0 <= p.timeRemaining < 6000.0
    requires p.timerStarted || p.timeRemaining != 0.0
    ensures var whole := p.timeRemaining.Floor;
      var m, s := whole / 60, whole % 60;
      p.TimeLeft() == TimeLeftPrefix + [DigitChar(m / 10), DigitChar(m % 10)] + ":"
                      + [DigitChar(s / 10), DigitChar(s % 10)]
  {
    var t := p.timeRemaining;
    MinutesAndSeconds(t);
    assert t.Floor < 6000;
    FormatD2TwoDigits(t.Floor / 60);
    FormatD2TwoDigits(t.Floor % 60);
  }

  /** A timer that is not running shows ten minutes both before it starts and when it shows zero. */
  lemma TimeLeftWhenNotStarted(p: PlayerStats)
    requires !p.timerStarted && (p.timeRemaining == 0.0 || p.timeRemaining == TimerStart)
    ensures p.TimeLeft() == TimeLeftPrefix + "10:00"
  {
    if p.timeRemaining == TimerStart {
      MinutesAndSeconds(TimerStart);
      assert TimerStart.Floor == 600;
      FormatD2TwoDigits(10);
      FormatD2TwoDigits(0);
    }
  }

  /** Every character is a decimal digit. */
  predicate AllDigits(s: string)
  {
    forall i :: 0 <= i < |s| ==> '0' <= s[i] <= '9'
  }

  /** NatToString writes only digits. */
  lemma {:induction false} NatToStringDigits(n: nat)
    ensures AllDigits(NatToString(n))
  {
    if n >= 10 {
      NatToStringDigits(n / 10);
    }
  }

  /** D2 of a non-negative number is at least two digits. */
  lemma FormatD2Digits(k: int)
    requires 0 <= k
    ensures AllDigits(FormatD2(k)) && 2 <= |FormatD2(k)|
  {
    NatToStringDigits(k);
    FormatD2Length(k);
  }

  /** The label's shape: the prefix, a digit field of two or more, a colon and a two-digit field. */
  predicate ClockForm(text: string)
  {
    var n := |TimeLeftPrefix|;
    && n + 5 <= |text| && text[..n] == TimeLeftPrefix && text[|text| - 3] == ':'
    && AllDigits(text[n..|text| - 3]) && AllDigits(text[|text| - 2..])
  }

  /** The prefix, digit minutes of two or more, a colon and two digits make a clock label. */
  lemma ClockTextForm(m: string, sec: string)
    requires AllDigits(m) && 2 <= |m| && AllDigits(sec) && |sec| == 2
    ensures ClockForm(TimeLeftPrefix + m + ":" + sec)
  {
    var text, n := TimeLeftPrefix + m + ":" + sec, |TimeLeftPrefix|;
    assert text[..n] == TimeLeftPrefix;
    assert text[n..|text| - 3] == m;
    assert text[|text| - 2..] == sec;
  }

  /** D2 minutes of a non-negative count and D2 seconds below 60 make a clock label. */
  lemma ClockFromFields(minutes: int, seconds: int)
    requires 0 <= minutes && 0 <= seconds < 60
    ensures ClockForm(TimeLeftPrefix + FormatD2(minutes) + ":" + FormatD2(seconds))
  {
    FormatD2Digits(minutes);
    FormatD2TwoDigits(seconds);
    FormatD2Digits(seconds);
    ClockTextForm(FormatD2(minutes), FormatD2(seconds));
  }

  /** For a non-negative time the minutes are non-negative and the seconds below 60. */
  lemma FieldsInRange(t: real)
    requires 0.0 <= t
    ensures 0 <= Trunc(t / 60.0) && 0 <= Trunc(FloatRem(t, 60.0)) < 60
  {
    MinutesAndSeconds(t);
  }

  /** The running label of a non-negative time has the clock shape. */
  lemma ClockFromTime(t: real)
    requires 0.0 <= t
    ensures ClockForm(RunningLabel(t))
  {
    FieldsInRange(t);
    ClockFromFields(Trunc(t / 60.0), Trunc(FloatRem(t, 60.0)));
  }

  /**
    For any non-negative time the label is the prefix, the minutes (two
    digits or more), a colon and two digits of seconds.
   */
  lemma TimeLeftForm(p: PlayerStats)
    requires 0.0 <= p.timeRemaining
    ensures ClockForm(p.TimeLeft())
  {
    if !p.timerStarted && p.timeRemaining == 0.0 {
      ClockTextForm("10", "00");
      assert p.TimeLeft() == TimeLeftPrefix + "10" + ":" + "00";
    } else {
      ClockFromTime(p.timeRemaining);
    }
  }
}
