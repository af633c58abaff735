/**
  Clock arithmetic of the alarm clock: the day/night brightness tier, the
  12-hour display conversion, and the one-second local tick that keeps time
  between network syncs.

  The hour is a `nat` with no upper bound: the tick carries minutes into the
  hour without reducing it modulo 24, so between two hourly resyncs the
  hour can read 24 or more.
 */
module Clock {

  const BRIGHTNESS_DAY: int := 200
  const BRIGHTNESS_NIGHT: int := 50

  /** Night runs from 20:00 to 06:59, day from 07:00 to 19:59. */
  predicate IsNight(hour: int) {
    hour >= 20 || hour < 7
  }

  /** `get_brightness_for_time`: the LED scaling for a 24-hour value. */
  function BrightnessFor(hour: int): (level: int)
    ensures level == BRIGHTNESS_NIGHT <==> IsNight(hour)
    ensures level == BRIGHTNESS_DAY <==> !IsNight(hour)
  {
    if hour >= 20 || hour < 7 then BRIGHTNESS_NIGHT else BRIGHTNESS_DAY
  }

  /** The tier only changes on the hour boundaries 07:00 and 20:00. */
  lemma TierChangesAtBoundaries(hour: nat)
    ensures BrightnessFor(hour + 1) != BrightnessFor(hour)
            <==> hour + 1 == 7 || hour + 1 == 20
  {
  }

  /** The brightness after `update_brightness`, and whether the panels were rescaled. */
  datatype Brightness = Brightness(level: int, rescaled: bool)

  /**
    `update_brightness`: the new level is always the tier of the hour, and
    the panels are rescaled only when that differs from the current level.
   */
  function UpdateBrightness(current: int, hour: int): (r: Brightness)
    ensures r.level == BrightnessFor(hour)
    ensures r.rescaled <==> current != BrightnessFor(hour)
    ensures !r.rescaled ==> r.level == current
  {
    var target := BrightnessFor(hour);
    if target != current then Brightness(target, true) else Brightness(current, false)
  }

  /** A second update for the same hour never rescales again. */
  lemma UpdateBrightnessIdempotent(current: int, hour: int)
    ensures UpdateBrightness(UpdateBrightness(current, hour).level, hour)
            == Brightness(UpdateBrightness(current, hour).level, false)
  {
  }

  /** The hour shown on the panels, with the PM flag for the dot under the colon. */
  datatype DisplayHour = DisplayHour(hours: nat, isPm: bool)

  /**
    The 12-hour conversion of the sync and the tick: hour 0 shows as 12, the
    PM flag is set from hour 12 on. In 24-hour mode the hour is shown as is
    and the flag is never set.
   */
  function ToDisplay(hour12: bool, hour: nat): (d: DisplayHour)
    ensures hour12 ==> 1 <= d.hours <= 12 && d.hours % 12 == hour % 12
    ensures hour12 ==> (d.isPm <==> hour >= 12)
    ensures !hour12 ==> d == DisplayHour(hour, false)
  {
    if hour12 then
      var h := hour % 12;
      DisplayHour(if h == 0 then 12 else h, hour >= 12)
    else
      DisplayHour(hour, false)
  }

  /** The 24-hour value a 12-hour display hour and PM flag stand for. */
  function FromDisplay(d: DisplayHour): nat {
    (d.hours % 12) + (if d.isPm then 12 else 0)
  }

  /** On a real day (0..23) the 12-hour display loses nothing. */
  lemma DisplayRoundTrip(hour: nat)
    requires hour < 24
    ensures FromDisplay(ToDisplay(true, hour)) == hour
  {
  }

  /**
    Past midnight without a resync the hour reads 24, which the display
    shows as 12 with the PM dot lit.
   */
  lemma PastMidnightShowsPm()
    ensures Tick(Time(23, 59, 59)).time == Time(24, 0, 0)
    ensures ToDisplay(true, 24) == DisplayHour(12, true)
    ensures FromDisplay(ToDisplay(true, 24)) != 24 % 24
  {
  }

  /** The locally kept wall-clock time: `am_pm_hour`, `mins`, `seconds`. */
  datatype Time = Time(hour: nat, mins: nat, seconds: nat)

  predicate Normal(t: Time) {
    t.mins <= 59 && t.seconds <= 59
  }

  /** Seconds since hour 0, minute 0 of the day the last sync started from. */
  function TotalSeconds(t: Time): nat {
    t.hour * 3600 + t.mins * 60 + t.seconds
  }

  /**
    What one local tick produced: the new time, whether the displayed
    string is stale (`new_time`) and whether the hour advanced (which is
    when the brightness is recomputed).
   */
  datatype TickResult = TickResult(time: Time, newTime: bool, hourRolled: bool)

  /**
    One second of local time-keeping. A normal time stays normal and moves
    on by exactly one second; the string goes stale exactly when the seconds
    wrap, and the hour moves exactly when the minutes wrap too. The hour is
    never reduced modulo 24.
   */
  function Tick(t: Time): (r: TickResult)
    ensures Normal(t) ==> Normal(r.time) && TotalSeconds(r.time) == TotalSeconds(t) + 1
    ensures t.mins <= 59 ==> (r.newTime <==> t.seconds >= 59)
    ensures Normal(t) ==> (r.hourRolled <==> t.mins == 59 && t.seconds == 59)
    ensures r.hourRolled ==> r.time.hour == t.hour + 1 && r.newTime
    ensures !r.hourRolled ==> r.time.hour == t.hour
  {
    var s := t.seconds + 1;
    var (m, s, stale) := if s > 59 then (t.mins + 1, 0, true) else (t.mins, s, false);
    if m > 59 then TickResult(Time(t.hour + 1, 0, s), true, true)
    else TickResult(Time(t.hour, m, s), stale, false)
  }

  /** `n` local ticks in a row with no resync in between. */
  function Ticks(t: Time, n: nat): Time
    decreases n
  {
    if n == 0 then t else Ticks(Tick(t).time, n - 1)
  }

  /** `n` ticks advance a normal time by exactly `n` seconds and keep it normal. */
  lemma {:induction false} TicksAdvance(t: Time, n: nat)
    requires Normal(t)
    ensures Normal(Ticks(t, n))
    ensures TotalSeconds(Ticks(t, n)) == TotalSeconds(t) + n
    decreases n
  {
    if n > 0 {
      TicksAdvance(Tick(t).time, n - 1);
    }
  }

  /** A normal time is determined by its second count. */
  lemma TotalSecondsInjective(a: Time, b: Time)
    requires Normal(a) && Normal(b)
    requires TotalSeconds(a) == TotalSeconds(b)
    ensures a == b
  {
    assert a.mins * 60 + a.seconds < 3600;
    assert b.mins * 60 + b.seconds < 3600;
    if a.hour != b.hour {
      assert false;
    }
    assert a.mins == b.mins by {
      if a.mins != b.mins {
        assert false;
      }
    }
  }

  /** 3600 ticks with no resync advance the clock by exactly one hour. */
  lemma AnHourOfTicks(t: Time)
    requires Normal(t)
    ensures Ticks(t, 3600) == Time(t.hour + 1, t.mins, t.seconds)
  {
    TicksAdvance(t, 3600);
    TotalSecondsInjective(Ticks(t, 3600), Time(t.hour + 1, t.mins, t.seconds));
  }
}
