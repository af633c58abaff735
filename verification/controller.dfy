/**
  The main loop of the alarm clock as a pure state machine. One call of
  `Step` is one pass of the loop: the button, the encoder, the alarm-status
  overlay, the auto-silence or the wink, the "WAKE UP" scroll or the
  setting blink, and finally the network resync and the local tick. Each
  phase sees the state the previous one left, exactly as the loop's
  statements do, and returns the screen updates it made, in order.

  A pass reads the millisecond counter once (`now`); the button's long
  press and short-press count, the encoder position and the network time
  reading are inputs of the pass.
 */
module Controller {
  import opened Format
  import opened Clock
  import opened Timers
  import opened Scroll
  import opened Eyes
  import opened Display
  import opened Text

  /** `set_alarm`: 0 shows the time, 1 sets the alarm hour, 2 the alarm minute. */
  datatype Mode = ShowTime | SetHour | SetMinute

  /** A short press: `set_alarm = (set_alarm + 1) % 3`. */
  function Next(m: Mode): (n: Mode)
    ensures n != m
    ensures n == ShowTime <==> m == SetMinute
  {
    match m
    case ShowTime => SetHour
    case SetHour => SetMinute
    case SetMinute => ShowTime
  }

  /** Three short presses bring every mode back to itself. */
  lemma ModeCycle(m: Mode)
    ensures Next(Next(Next(m))) == m
    ensures Next(Next(m)) != m
  {
  }

  /** The settings at the top of the program. */
  datatype Config = Config(hour12: bool, alarmHour: nat, alarmMin: nat, noAlarm: bool)

  /** The fields of a network time reading the loop uses. */
  datatype NtpTime = NtpTime(hour: nat, min: nat, sec: nat)

  predicate ValidNtp(t: NtpTime) {
    t.hour < 24 && t.min < 60 && t.sec < 60
  }

  /**
    What one pass reads from outside: the millisecond counter, the
    button's long press and short-press count, the raw encoder position
    (the loop negates it), and the time a resync would fetch.
   */
  datatype Input = Input(now: int, longPress: bool, shortCount: nat, encoderPosition: int, ntp: NtpTime)

  /**
    The variables the encoder edits: the colour (`color_value`), the alarm
    hour and minute, and the PM flag the alarm hour is shown with.
   */
  datatype Settings = Settings(hue: int, alarmHour: nat, alarmMin: nat, alarmIsPm: bool)

  /** The loop's variables. */
  datatype State = State(
    mode: Mode,                // set_alarm
    time: Time,                // am_pm_hour, mins, seconds
    firstRun: bool,
    timeStr: string,           // time_str
    isPm: bool,
    brightness: int,           // current_brightness
    settings: Settings,        // what the encoder edits
    noAlarm: bool,             // no_alarm_plz
    active: bool,              // active_alarm
    alarmStart: int,           // alarm_start_time
    scrollOffset: int,         // "WAKE UP " scroll position
    scrollClock: int,
    showingStatus: bool,       // showing_alarm_status
    statusStart: int,          // alarm_status_start_time
    statusScrollClock: int,
    statusOffset: int,         // "ON "/"OFF " scroll position
    winkClock: int,
    blinkClock: int,           // alarm_blink_clock
    blinkOn: bool,             // alarm_blink_state
    refreshClock: int,
    clockClock: int,
    lastPosition: int)

  /** The state after a phase and the screen updates it made, in order. */
  datatype Out = Out(state: State, draws: seq<Draw>)

  /** The ranges the loop keeps its variables in. */
  predicate Valid(s: State) {
    InRange(s.settings)
    && Normal(s.time)
    && (s.brightness == BRIGHTNESS_DAY || s.brightness == BRIGHTNESS_NIGHT)
    && 0 <= s.scrollOffset <= ScrollBound(WAKE_UP_TEXT)
    && 0 <= s.statusOffset <= ScrollBound(StatusText(s.noAlarm))
  }

  /** The colour on its wheel, the alarm hour and minute on theirs. */
  predicate InRange(st: Settings) {
    0 <= st.hue < 255 && st.alarmHour < 24 && st.alarmMin < 60
  }

  /** In 12-hour mode, the alarm's PM flag agrees with the alarm hour. */
  predicate PmAgrees(hour12: bool, st: Settings) {
    hour12 ==> (st.alarmIsPm <==> st.alarmHour >= 12)
  }

  predicate AlarmPmAgrees(hour12: bool, s: State) {
    PmAgrees(hour12, s.settings)
  }

  /** The variables before the first pass; every timer starts at `now`. */
  function Init(cfg: Config, now: int): (s: State)
    ensures cfg.alarmHour < 24 && cfg.alarmMin < 60 ==> Valid(s)
    ensures s.mode == ShowTime && s.firstRun && !s.active && !s.showingStatus
    ensures s.noAlarm == cfg.noAlarm && s.settings.alarmHour == cfg.alarmHour && s.settings.alarmMin == cfg.alarmMin
  {
    State(ShowTime, Time(0, 0, 0), true, "00:00", false, BRIGHTNESS_DAY,
          Settings(0, cfg.alarmHour, cfg.alarmMin, false), cfg.noAlarm,
          false, now, 0, now,
          false, now, now, 0,
          now, now, true,
          now, now, 0)
  }

  // ----- Texts and screen updates -----

  /** The status overlay's text: whether alarms are on. */
  function StatusText(noAlarm: bool): string {
    if noAlarm then STATUS_OFF_TEXT else STATUS_ON_TEXT
  }

  /** `f"{hours:02}:{mins:02}"` with the hour as the display shows it. */
  function TimeText(hour12: bool, hour: nat, mins: nat): string {
    Pad2(ToDisplay(hour12, hour).hours) + ":" + Pad2(mins)
  }

  /** The alarm hour being set, the minute half blanked. */
  function HourText(hour12: bool, alarmHour: nat): string {
    Pad2(ToDisplay(hour12, alarmHour).hours) + ":  "
  }

  /** `f"  :{alarm_min:02}"`: the alarm minute being set, the hour half blanked. */
  function MinuteText(alarmMin: nat): string {
    "  :" + Pad2(alarmMin)
  }

  /** A decimal digit is one of the characters a clock text may hold. */
  lemma DigitIsClockChar(c: char)
    requires '0' <= c <= '9'
    ensures c in CLOCK_CHARS
  {
    var d := c as int - '0' as int;
    assert "0123456789 "[d] == c;
  }

  /** Two digits rendered by `Pad2` are clock-text characters. */
  lemma Pad2IsClockChars(n: nat)
    requires n < 100
    ensures |Pad2(n)| == 2 && Pad2(n)[0] in CLOCK_CHARS && Pad2(n)[1] in CLOCK_CHARS
  {
    DigitIsClockChar(Pad2(n)[0]);
    DigitIsClockChar(Pad2(n)[1]);
  }

  /**
    The time and setting texts, for an hour and minute of a real day, are
    five-character clock texts "HH:MM" with the unused half blank.
   */
  lemma TextsAreClockTexts(hour12: bool, hour: nat, mins: nat)
    requires hour < 24 && mins < 60
    ensures IsClockText(TimeText(hour12, hour, mins))
    ensures IsClockText(HourText(hour12, hour)) && HourText(hour12, hour)[3..] == "  "
    ensures IsClockText(MinuteText(mins)) && MinuteText(mins)[..2] == "  "
  {
    Pad2IsClockChars(ToDisplay(hour12, hour).hours);
    Pad2IsClockChars(mins);
    assert ' ' in CLOCK_CHARS by { assert "0123456789 "[10] == ' '; }
  }

  /**
    The time text reads back: its first two characters are the displayed
    hour and its last two the minute.
   */
  lemma TimeTextReadsBack(hour12: bool, hour: nat, mins: nat)
    requires hour < 24 && mins < 60
    ensures var t := TimeText(hour12, hour, mins);
            |t| == 5 && t[2] == ':'
            && ParseTwo(t[..2]) == ToDisplay(hour12, hour).hours && ParseTwo(t[3..]) == mins
  {
    var h := ToDisplay(hour12, hour).hours;
    Pad2RoundTrip(h);
    Pad2RoundTrip(mins);
    var t := TimeText(hour12, hour, mins);
    assert t[..2] == Pad2(h);
    assert t[3..] == Pad2(mins);
  }

  /**
    The time display is unambiguous: two times of a real day that light
    the same pixels are the same time, in 24-hour mode by the digits alone
    and in 12-hour mode by the digits and the PM dot together.
   */
  lemma TimeDisplayDecodes(hour12: bool, h1: nat, m1: nat, h2: nat, m2: nat)
    requires h1 < 24 && m1 < 60 && h2 < 24 && m2 < 60
    requires TextFrame(TimeText(hour12, h1, m1), ToDisplay(hour12, h1).isPm)
             == TextFrame(TimeText(hour12, h2, m2), ToDisplay(hour12, h2).isPm)
    ensures h1 == h2 && m1 == m2
  {
    TextsAreClockTexts(hour12, h1, m1);
    TextsAreClockTexts(hour12, h2, m2);
    ClockTextDecodes(TimeText(hour12, h1, m1), ToDisplay(hour12, h1).isPm,
                     TimeText(hour12, h2, m2), ToDisplay(hour12, h2).isPm);
    TimeTextReadsBack(hour12, h1, m1);
    TimeTextReadsBack(hour12, h2, m2);
    if hour12 {
      DisplayRoundTrip(h1);
      DisplayRoundTrip(h2);
    }
  }

  /** Redraws the current time string. */
  function TimeDraw(s: State): Draw {
    ShowText(s.timeStr, s.settings.hue, s.isPm)
  }

  /**
    What a mode shows when its display is refreshed: the time, the alarm
    hour (with the PM dot from the alarm's flag, in 12-hour mode only) or
    the alarm minute.
   */
  function SettingDraw(hour12: bool, s: State): (d: Draw)
    ensures d.ShowText?
  {
    match s.mode
    case ShowTime => TimeDraw(s)
    case SetHour => ShowText(HourText(hour12, s.settings.alarmHour), s.settings.hue, hour12 && s.settings.alarmIsPm)
    case SetMinute => ShowText(MinuteText(s.settings.alarmMin), s.settings.hue, s.settings.alarmIsPm)
  }

  /** `blink_animation`: three times dark, then the text. */
  function BlinkAnimation(d: Draw): (ds: seq<Draw>)
    ensures |ds| == 6
    ensures forall i :: 0 <= i < 6 ==> ds[i] == (if i % 2 == 0 then ShowBlank else d)
  {
    [ShowBlank, d, ShowBlank, d, ShowBlank, d]
  }

  /** `perform_wink_animation`, one eyes frame per step of the wink sequence. */
  function WinkAnimation(hue: int): (ds: seq<Draw>)
    ensures |ds| == |WINK_SEQUENCE|
    ensures forall i :: 0 <= i < |ds| ==> ds[i] == ShowEyes(WINK_SEQUENCE[i], hue)
  {
    [ShowEyes(0, hue), ShowEyes(1, hue), ShowEyes(0, hue), ShowEyes(2, hue), ShowEyes(0, hue)]
  }

  predicate NoEyes(ds: seq<Draw>) {
    forall i :: 0 <= i < |ds| ==> !ds[i].ShowEyes?
  }

  lemma NoEyesConcat(a: seq<Draw>, b: seq<Draw>)
    ensures NoEyes(a + b) <==> NoEyes(a) && NoEyes(b)
  {
    if NoEyes(a) && NoEyes(b) {
      forall i | 0 <= i < |a + b| ensures !(a + b)[i].ShowEyes? {
        if i >= |a| { assert (a + b)[i] == b[i - |a|]; }
      }
    }
    if NoEyes(a + b) {
      forall i | 0 <= i < |a| ensures !a[i].ShowEyes? {
        assert (a + b)[i] == a[i];
      }
      forall i | 0 <= i < |b| ensures !b[i].ShowEyes? {
        assert (a + b)[|a| + i] == b[i];
      }
    }
  }

  // ----- Phase 1: the button -----

  /**
    A long press. From the time display it enters alarm-hour setting; while
    the alarm rings it silences it, restoring the brightness of the hour
    and rewinding the scroll. Otherwise it does nothing.
   */
  function LongPress(hour12: bool, s: State): (r: Out)
    ensures s.mode == ShowTime && !s.active ==> r == EnterHourSetting(hour12, s)
    ensures s.active ==>
              r.state == s.(active := false, scrollOffset := 0, brightness := BrightnessFor(s.time.hour))
              && r.draws == []
    ensures s.mode != ShowTime && !s.active ==> r == Out(s, [])
    ensures !r.state.active && r.state.alarmStart == s.alarmStart && r.state.winkClock == s.winkClock
    ensures SameClock(r.state, s) && r.state.noAlarm == s.noAlarm
    ensures NoEyes(r.draws)
  {
    if s.mode == ShowTime && !s.active then
      EnterHourSetting(hour12, s)
    else if s.active then
      Out(s.(active := false, brightness := UpdateBrightness(s.brightness, s.time.hour).level, scrollOffset := 0), [])
    else
      Out(s, [])
  }

  /**
    Entering alarm-hour setting: the PM flag is computed from the alarm
    hour in 12-hour mode (cleared otherwise), and the hour blinks three
    times before it stays.
   */
  function EnterHourSetting(hour12: bool, s: State): (r: Out)
    ensures r.state == s.(mode := SetHour, settings := s.settings.(alarmIsPm := hour12 && s.settings.alarmHour >= 12))
    ensures AlarmPmAgrees(hour12, r.state)
    ensures |r.draws| == 7 && r.draws == BlinkAnimation(r.draws[6]) + [r.draws[6]]
    ensures r.draws[6] == SettingDraw(hour12, r.state)
    ensures NoEyes(r.draws)
  {
    var s1 := s.(mode := SetHour, settings := s.settings.(alarmIsPm := hour12 && s.settings.alarmHour >= 12));
    var d := SettingDraw(hour12, s1);
    var ds := BlinkAnimation(d) + [d];
    assert ds[6] == d;
    assert NoEyes(ds);
    Out(s1, ds)
  }

  /**
    Short presses. One press moves to the next mode: back on the time it
    redraws the time; entering minute setting it blinks the minute;
    entering hour setting it draws nothing and leaves the alarm's PM flag
    as it was. Three presses toggle the alarms and start the status
    overlay from its first position.
   */
  function ShortPress(s: State, count: nat, now: int): (r: Out)
    ensures count == 1 ==> r.state == s.(mode := Next(s.mode))
    ensures count == 1 && r.state.mode == ShowTime ==> r.draws == [TimeDraw(s)]
    ensures count == 1 && r.state.mode == SetHour ==> r.draws == []
    ensures count == 1 && r.state.mode == SetMinute ==>
              |r.draws| == 7 && r.draws == BlinkAnimation(r.draws[6]) + [r.draws[6]]
              && r.draws[6] == ShowText(MinuteText(s.settings.alarmMin), s.settings.hue, s.settings.alarmIsPm)
    ensures count == 3 ==>
              r.state == s.(noAlarm := !s.noAlarm, showingStatus := true, statusStart := now, statusOffset := 0)
              && r.draws == []
    ensures count != 1 && count != 3 ==> r == Out(s, [])
    ensures r.state.settings == s.settings
    ensures SameClock(r.state, s) && r.state.active == s.active
    ensures r.state.alarmStart == s.alarmStart && r.state.winkClock == s.winkClock
    ensures NoEyes(r.draws)
  {
    if count == 1 then
      var s1 := s.(mode := Next(s.mode));
      match s1.mode
      case ShowTime => Out(s1, [TimeDraw(s1)])
      case SetHour => Out(s1, [])
      case SetMinute =>
        var d := SettingDraw(false, s1);
        Out(s1, BlinkAnimation(d) + [d])
    else if count == 3 then
      Out(s.(noAlarm := !s.noAlarm, showingStatus := true, statusStart := now, statusOffset := 0), [])
    else
      Out(s, [])
  }

  // ----- Phase 2: the encoder -----

  /**
    One detent of the knob (`delta` is +1 or -1) changes the setting of
    the mode: the colour by 5 on a wheel of 255, the alarm hour on a
    24-hour wheel (refreshing its PM flag in 12-hour mode), or the alarm
    minute on a 60-minute wheel. Nothing else changes.
   */
  function Adjust(hour12: bool, mode: Mode, st: Settings, delta: int): (st': Settings)
    requires delta == 1 || delta == -1
    ensures mode == ShowTime ==> st' == st.(hue := (st.hue + 5 * delta) % 255)
    ensures mode == SetHour ==>
              st'.hue == st.hue && st'.alarmMin == st.alarmMin
              && st'.alarmHour == (st.alarmHour + delta) % 24
              && (hour12 ==> (st'.alarmIsPm <==> st'.alarmHour >= 12))
              && (!hour12 ==> st'.alarmIsPm == st.alarmIsPm)
    ensures mode == SetMinute ==> st' == st.(alarmMin := (st.alarmMin + delta) % 60)
    ensures InRange(st) ==> InRange(st')
    ensures PmAgrees(hour12, st) ==> PmAgrees(hour12, st')
  {
    match mode
    case ShowTime => st.(hue := (st.hue + 5 * delta) % 255)
    case SetHour =>
      var h := (st.alarmHour + delta) % 24;
      st.(alarmHour := h, alarmIsPm := if hour12 then h >= 12 else st.alarmIsPm)
    case SetMinute => st.(alarmMin := (st.alarmMin + delta) % 60)
  }

  /**
    The encoder phase: a position different from the last one seen is one
    detent in its direction; the new setting is drawn and the position
    remembered.
   */
  function Turn(hour12: bool, s: State, position: int): (r: Out)
    ensures position == s.lastPosition ==> r == Out(s, [])
    ensures position != s.lastPosition ==>
              var delta := if position > s.lastPosition then 1 else -1;
              r.state == s.(settings := Adjust(hour12, s.mode, s.settings, delta), lastPosition := position)
              && r.draws == [SettingDraw(hour12, r.state)]
    ensures r.state.mode == s.mode && r.state.noAlarm == s.noAlarm && r.state.time == s.time
    ensures NoEyes(r.draws)
  {
    if position == s.lastPosition then Out(s, [])
    else
      var delta := if position > s.lastPosition then 1 else -1;
      var st := Adjust(hour12, s.mode, s.settings, delta);
      var s1 := s.(settings := st, lastPosition := position);
      Out(s1, [SettingDraw(hour12, s1)])
  }

  /**
    A detent one way and one back restore every variable, as long as in
    12-hour mode the alarm's PM flag already agreed with its hour.
   */
  lemma TurnUndo(hour12: bool, s: State)
    requires Valid(s)
    requires s.mode == SetHour ==> AlarmPmAgrees(hour12, s)
    ensures Turn(hour12, Turn(hour12, s, s.lastPosition + 1).state, s.lastPosition).state == s
    ensures Turn(hour12, Turn(hour12, s, s.lastPosition - 1).state, s.lastPosition).state == s
  {
    AdjustUndo(hour12, s.mode, s.settings, 1);
    AdjustUndo(hour12, s.mode, s.settings, -1);
  }

  /** A detent and its opposite restore the settings. */
  lemma AdjustUndo(hour12: bool, mode: Mode, st: Settings, delta: int)
    requires InRange(st)
    requires delta == 1 || delta == -1
    requires mode == SetHour ==> PmAgrees(hour12, st)
    ensures Adjust(hour12, mode, Adjust(hour12, mode, st, delta), -delta) == st
  {
    match mode
    case ShowTime =>
      WheelUndo(st.hue, 5 * delta, 255);
    case SetHour =>
      WheelUndo(st.alarmHour, delta, 24);
    case SetMinute =>
      WheelUndo(st.alarmMin, delta, 60);
  }

  /** On a wheel of `n` positions, a step and its opposite cancel. */
  lemma WheelUndo(x: int, step: int, n: int)
    requires n == 24 || n == 60 || n == 255
    requires 0 <= x < n
    requires -n < step < n
    ensures ((x + step) % n - step) % n == x
  {
    var y := x + step;
    if 0 <= y < n {
      WheelMod(y, 0, n);
      WheelMod(x, 0, n);
    } else if y >= n {
      WheelMod(y, 1, n);
      WheelMod(x - n, -1, n);
    } else {
      WheelMod(y, -1, n);
      WheelMod(x + n, 1, n);
    }
  }

  /** `y % n` for a `y` that lies `k` whole turns past the wheel's range. */
  lemma WheelMod(y: int, k: int, n: int)
    requires n == 24 || n == 60 || n == 255
    requires -1 <= k <= 1
    requires k * n <= y < k * n + n
    ensures y % n == y - k * n
  {
    if n == 24 {
      if k == -1 { assert y % 24 == y + 24; } else if k == 0 { assert y % 24 == y; } else { assert y % 24 == y - 24; }
    } else if n == 60 {
      if k == -1 { assert y % 60 == y + 60; } else if k == 0 { assert y % 60 == y; } else { assert y % 60 == y - 60; }
    } else {
      if k == -1 { assert y % 255 == y + 255; } else if k == 0 { assert y % 255 == y; } else { assert y % 255 == y - 255; }
    }
  }

  // ----- Phase 3: the alarm-status overlay -----

  /**
    While the overlay shows, "ON " or "OFF " scrolls one column whenever
    its 100 ms timer is due, and wraps after its last column has left;
    after 3 s the overlay ends and, when the time display is idle, the time
    is redrawn. The timer is never restarted: after a long pause it is due
    on every pass until it has caught up.
   */
  function StatusOverlay(s: State, now: int): (r: Out)
    ensures !s.showingStatus ==> r == Out(s, [])
    ensures r.state == s.(statusOffset := r.state.statusOffset, statusScrollClock := r.state.statusScrollClock,
                          showingStatus := r.state.showingStatus)
    ensures s.showingStatus && Elapsed(now, s.statusScrollClock, STATUS_SCROLL_INTERVAL) ==>
              r.state.statusScrollClock == s.statusScrollClock + STATUS_SCROLL_INTERVAL
              && r.state.statusOffset == ScrollStep(StatusText(s.noAlarm), s.statusOffset)
              && |r.draws| >= 1 && r.draws[0] == ShowScroll(StatusText(s.noAlarm), s.statusOffset, s.settings.hue)
    ensures !Elapsed(now, s.statusScrollClock, STATUS_SCROLL_INTERVAL) ==>
              r.state.statusOffset == s.statusOffset && r.state.statusScrollClock == s.statusScrollClock
    ensures s.showingStatus ==>
              r.draws == (if Elapsed(now, s.statusScrollClock, STATUS_SCROLL_INTERVAL)
                          then [ShowScroll(StatusText(s.noAlarm), s.statusOffset, s.settings.hue)] else [])
                         + (if Elapsed(now, s.statusStart, STATUS_DURATION) && s.mode == ShowTime && !s.active
                            then [TimeDraw(s)] else [])
    ensures r.state.showingStatus <==> s.showingStatus && !Elapsed(now, s.statusStart, STATUS_DURATION)
    ensures NoEyes(r.draws)
  {
    if !s.showingStatus then Out(s, [])
    else
      var o1 := StatusScroll(s, now);
      var o2 := StatusEnd(o1.state, now);
      NoEyesConcat(o1.draws, o2.draws);
      Out(o2.state, o1.draws + o2.draws)
  }

  /** One step of the status scroll, when its timer fires. */
  function StatusScroll(s: State, now: int): (r: Out)
    ensures Elapsed(now, s.statusScrollClock, STATUS_SCROLL_INTERVAL) ==>
              r.state == s.(statusOffset := ScrollStep(StatusText(s.noAlarm), s.statusOffset),
                            statusScrollClock := s.statusScrollClock + STATUS_SCROLL_INTERVAL)
              && r.draws == [ShowScroll(StatusText(s.noAlarm), s.statusOffset, s.settings.hue)]
    ensures !Elapsed(now, s.statusScrollClock, STATUS_SCROLL_INTERVAL) ==> r == Out(s, [])
    ensures NoEyes(r.draws)
  {
    var text := StatusText(s.noAlarm);
    var scroll := PollTimer(s.statusScrollClock, STATUS_SCROLL_INTERVAL, now);
    if scroll.fired then
      Out(s.(statusOffset := ScrollStep(text, s.statusOffset), statusScrollClock := scroll.last),
          [ShowScroll(text, s.statusOffset, s.settings.hue)])
    else
      Out(s, [])
  }

  /** The end of the overlay after its 3 s, with the time redrawn on the idle time display. */
  function StatusEnd(s: State, now: int): (r: Out)
    ensures Elapsed(now, s.statusStart, STATUS_DURATION) ==>
              r.state == s.(showingStatus := false)
              && r.draws == (if s.mode == ShowTime && !s.active then [TimeDraw(s)] else [])
    ensures !Elapsed(now, s.statusStart, STATUS_DURATION) ==> r == Out(s, [])
    ensures NoEyes(r.draws)
  {
    if Elapsed(now, s.statusStart, STATUS_DURATION) then
      Out(s.(showingStatus := false), if s.mode == ShowTime && !s.active then [TimeDraw(s)] else [])
    else
      Out(s, [])
  }

  // ----- Phase 4: auto-silence, or else the wink -----

  /**
    A minute after it started the alarm silences itself, restoring the
    brightness, rewinding the scroll and redrawing the time, but leaving
    the alarms enabled. Otherwise, on the idle time display, the eyes wink
    whenever the 30 s wink timer is due, and the time is redrawn. The timer
    only moves on the idle time display, one interval per wink, so after a
    long stay elsewhere the winks come back to back until it catches up.
   */
  function SilenceOrWink(s: State, now: int): (r: Out)
    ensures s.active && Elapsed(now, s.alarmStart, AUTO_SILENCE) ==>
              r.state == s.(active := false, scrollOffset := 0, brightness := BrightnessFor(s.time.hour))
              && r.draws == [TimeDraw(s)]
    ensures s.mode == ShowTime && !s.active && Elapsed(now, s.winkClock, WINK_INTERVAL) ==>
              r.state == s.(winkClock := s.winkClock + WINK_INTERVAL)
              && r.draws == WinkAnimation(s.settings.hue) + [TimeDraw(s)]
    ensures s.active && !Elapsed(now, s.alarmStart, AUTO_SILENCE) ==> r == Out(s, [])
    ensures !s.active && !(s.mode == ShowTime && Elapsed(now, s.winkClock, WINK_INTERVAL)) ==> r == Out(s, [])
    ensures !NoEyes(r.draws) ==> s.mode == ShowTime && !s.active && r.state.winkClock == s.winkClock + WINK_INTERVAL
    ensures r.state.noAlarm == s.noAlarm
    ensures r.state == s.(active := r.state.active, scrollOffset := r.state.scrollOffset,
                          brightness := r.state.brightness, winkClock := r.state.winkClock)
    ensures r.state.active ==> r.state == s
  {
    if s.active && Elapsed(now, s.alarmStart, AUTO_SILENCE) then
      Out(s.(active := false, brightness := UpdateBrightness(s.brightness, s.time.hour).level, scrollOffset := 0),
          [TimeDraw(s)])
    else if s.mode == ShowTime && !s.active && Elapsed(now, s.winkClock, WINK_INTERVAL) then
      Out(s.(winkClock := s.winkClock + WINK_INTERVAL), WinkAnimation(s.settings.hue) + [TimeDraw(s)])
    else
      Out(s, [])
  }

  // ----- Phase 5: the alarm scroll, or else the setting blink -----

  /**
    While the alarm rings, "WAKE UP " scrolls one column whenever its 80 ms
    timer is due. While a setting is edited, the setting blinks: whenever
    its 500 ms timer is due it is alternately hidden (both panels dark) and
    shown. Neither timer is restarted when its mode begins, so each is due
    on every pass until it has caught up with the time spent elsewhere.
   */
  function Animate(hour12: bool, s: State, now: int): (r: Out)
    ensures s.active && Elapsed(now, s.scrollClock, SCROLL_INTERVAL) ==>
              r.state == s.(scrollOffset := ScrollStep(WAKE_UP_TEXT, s.scrollOffset),
                            scrollClock := s.scrollClock + SCROLL_INTERVAL)
              && r.draws == [ShowScroll(WAKE_UP_TEXT, s.scrollOffset, s.settings.hue)]
    ensures !s.active && s.mode != ShowTime && Elapsed(now, s.blinkClock, BLINK_INTERVAL) ==>
              r.state == s.(blinkOn := !s.blinkOn, blinkClock := s.blinkClock + BLINK_INTERVAL)
              && r.draws == [if r.state.blinkOn then SettingDraw(hour12, s) else ShowBlank]
    ensures r.state == s.(scrollOffset := r.state.scrollOffset, scrollClock := r.state.scrollClock,
                          blinkOn := r.state.blinkOn, blinkClock := r.state.blinkClock)
    ensures s.active && !Elapsed(now, s.scrollClock, SCROLL_INTERVAL) ==> r == Out(s, [])
    ensures !s.active && !Elapsed(now, s.blinkClock, BLINK_INTERVAL) ==> r == Out(s, [])
    ensures s.mode == ShowTime && !s.active ==> r == Out(s, [])
    ensures NoEyes(r.draws)
  {
    if s.active then
      if Elapsed(now, s.scrollClock, SCROLL_INTERVAL) then
        Out(s.(scrollOffset := ScrollStep(WAKE_UP_TEXT, s.scrollOffset), scrollClock := s.scrollClock + SCROLL_INTERVAL),
            [ShowScroll(WAKE_UP_TEXT, s.scrollOffset, s.settings.hue)])
      else
        Out(s, [])
    else if s.mode != ShowTime then
      if Elapsed(now, s.blinkClock, BLINK_INTERVAL) then
        var on := !s.blinkOn;
        Out(s.(blinkOn := on, blinkClock := s.blinkClock + BLINK_INTERVAL),
            [if on then SettingDraw(hour12, s) else ShowBlank])
      else
        Out(s, [])
    else
      Out(s, [])
  }

  // ----- Phase 6: time-keeping, on the time display only -----

  /**
    The hourly network resync (and the first one): the clock is set from
    the reading, the brightness follows its hour, the time string and PM
    flag are rebuilt, and the time is drawn unless the alarm or the status
    overlay has the panels. The refresh timer moves on by one hour.
   */
  function Resync(hour12: bool, s: State, now: int, ntp: NtpTime): (r: Out)
    ensures s.mode != ShowTime || !(s.firstRun || Elapsed(now, s.refreshClock, REFRESH_INTERVAL)) ==> r == Out(s, [])
    ensures s.mode == ShowTime && (s.firstRun || Elapsed(now, s.refreshClock, REFRESH_INTERVAL)) ==>
              !r.state.firstRun
              && r.state.time == Time(ntp.hour, ntp.min, ntp.sec)
              && r.state.brightness == BrightnessFor(ntp.hour)
              && r.state.timeStr == TimeText(hour12, ntp.hour, ntp.min)
              && (r.state.isPm <==> hour12 && ntp.hour >= 12)
              && r.state.refreshClock == s.refreshClock + REFRESH_INTERVAL
              && r.draws == (if !s.active && !s.showingStatus then [TimeDraw(r.state)] else [])
    ensures r.state == s.(firstRun := r.state.firstRun, time := r.state.time, brightness := r.state.brightness,
                          isPm := r.state.isPm, timeStr := r.state.timeStr, refreshClock := r.state.refreshClock)
    ensures NoEyes(r.draws)
  {
    if s.mode == ShowTime && (Elapsed(now, s.refreshClock, REFRESH_INTERVAL) || s.firstRun) then
      var s1 := s.(firstRun := false, time := Time(ntp.hour, ntp.min, ntp.sec),
                   brightness := UpdateBrightness(s.brightness, ntp.hour).level,
                   isPm := ToDisplay(hour12, ntp.hour).isPm,
                   timeStr := TimeText(hour12, ntp.hour, ntp.min),
                   refreshClock := s.refreshClock + REFRESH_INTERVAL);
      Out(s1, if !s.active && !s.showingStatus then [TimeDraw(s1)] else [])
    else
      Out(s, [])
  }

  /** Does the clock read the alarm time, with alarms enabled? */
  predicate AlarmDue(s: State) {
    s.time.hour == s.settings.alarmHour && s.time.mins == s.settings.alarmMin && !s.noAlarm
  }

  /**
    The loop compares the strings `f"{am_pm_hour:02}:{mins:02}"` and
    `alarm`; that is the integer comparison `AlarmDue` makes.
   */
  lemma AlarmDueIsKeyMatch(s: State)
    requires Valid(s)
    ensures AlarmDue(s) <==> AlarmKey(s.time.hour, s.time.mins) == AlarmKey(s.settings.alarmHour, s.settings.alarmMin) && !s.noAlarm
  {
    AlarmKeyMatch(s.time.hour, s.time.mins, s.settings.alarmHour, s.settings.alarmMin);
  }

  /**
    The local one-second tick, when its timer fires. The PM flag follows
    the (possibly past 23) hour on every tick; the brightness is recomputed
    when the hour rolls. When the minute changes the time string is rebuilt
    and drawn (unless the alarm or the overlay has the panels), and the
    alarm starts exactly when the new time is the alarm time and alarms are
    enabled.
   */
  function TickFired(hour12: bool, s: State, now: int): (r: Out)
    ensures var t := Tick(s.time);
            r.state.time == t.time
            && r.state.clockClock == s.clockClock + CLOCK_INTERVAL
            && (r.state.isPm <==> hour12 && t.time.hour >= 12)
            && r.state.brightness == (if t.hourRolled then BrightnessFor(t.time.hour) else s.brightness)
            && r.state.timeStr == (if t.newTime then TimeText(hour12, t.time.hour, t.time.mins) else s.timeStr)
    ensures var t := Tick(s.time);
            (r.state.active <==> s.active || (t.newTime && AlarmDue(r.state)))
            && (t.newTime && AlarmDue(r.state) ==> r.state.alarmStart == now && r.state.scrollOffset == 0)
            && (!(t.newTime && AlarmDue(r.state)) ==>
                  r.state.alarmStart == s.alarmStart && r.state.scrollOffset == s.scrollOffset)
            && r.draws == (if t.newTime && !s.active && !s.showingStatus then [TimeDraw(r.state)] else [])
    ensures r.state == s.(time := r.state.time, isPm := r.state.isPm, brightness := r.state.brightness,
                          timeStr := r.state.timeStr, clockClock := r.state.clockClock,
                          active := r.state.active, alarmStart := r.state.alarmStart,
                          scrollOffset := r.state.scrollOffset)
  {
    var t := Tick(s.time);
    var s1 := s.(time := t.time, isPm := ToDisplay(hour12, t.time.hour).isPm,
                 brightness := if t.hourRolled then UpdateBrightness(s.brightness, t.time.hour).level else s.brightness,
                 clockClock := s.clockClock + CLOCK_INTERVAL);
    if t.newTime then
      var s2 := s1.(timeStr := TimeText(hour12, t.time.hour, t.time.mins));
      var draws := if !s.active && !s.showingStatus then [TimeDraw(s2)] else [];
      if AlarmDue(s2) then Out(s2.(active := true, alarmStart := now, scrollOffset := 0), draws)
      else Out(s2, draws)
    else
      Out(s1, [])
  }

  /**
    The tick phase: it runs on the time display only, once its timer has
    fired; a newly started alarm means the minute just turned to the alarm
    time.
   */
  function LocalTick(hour12: bool, s: State, now: int): (r: Out)
    ensures s.mode != ShowTime || !Elapsed(now, s.clockClock, CLOCK_INTERVAL) ==> r == Out(s, [])
    ensures s.mode == ShowTime && Elapsed(now, s.clockClock, CLOCK_INTERVAL) ==> r == TickFired(hour12, s, now)
    ensures r.state == s.(time := r.state.time, isPm := r.state.isPm, brightness := r.state.brightness,
                          timeStr := r.state.timeStr, clockClock := r.state.clockClock,
                          active := r.state.active, alarmStart := r.state.alarmStart,
                          scrollOffset := r.state.scrollOffset)
    ensures r.state.active && !s.active ==>
              AlarmDue(r.state) && r.state.alarmStart == now && r.state.scrollOffset == 0
              && (Normal(s.time) ==> r.state.time.seconds == 0)
    ensures NoEyes(r.draws)
  {
    if s.mode == ShowTime && Elapsed(now, s.clockClock, CLOCK_INTERVAL) then
      TickFired(hour12, s, now)
    else
      Out(s, [])
  }

  // ----- One pass of the loop -----

  /** The clock's variables, which only the time-keeping phase changes. */
  predicate SameClock(a: State, b: State) {
    a.time == b.time && a.timeStr == b.timeStr && a.firstRun == b.firstRun
    && a.clockClock == b.clockClock && a.refreshClock == b.refreshClock && a.isPm == b.isPm
  }

  /**
    The buttons: the long press, then the short presses. Only the long
    press silences the alarm, and only the triple press flips the alarm
    switch.
   */
  function Presses(hour12: bool, s: State, input: Input): (r: Out)
    ensures SameClock(r.state, s)
    ensures r.state.noAlarm == (s.noAlarm != (input.shortCount == 3))
    ensures r.state.active <==> s.active && !input.longPress
    ensures r.state.alarmStart == s.alarmStart && r.state.winkClock == s.winkClock
    ensures NoEyes(r.draws)
  {
    var o1 := if input.longPress then LongPress(hour12, s) else Out(s, []);
    var o2 := ShortPress(o1.state, input.shortCount, input.now);
    NoEyesConcat(o1.draws, o2.draws);
    Out(o2.state, o1.draws + o2.draws)
  }

  /**
    The input stage: the long press, the short presses and the encoder.
    It never touches the clock, never starts the alarm, and it alone
    decides the mode of the pass; only the triple press flips the alarm
    switch.
   */
  function Controls(hour12: bool, s: State, input: Input): (r: Out)
    ensures SameClock(r.state, s)
    ensures r.state.noAlarm == (s.noAlarm != (input.shortCount == 3))
    ensures r.state.active ==> s.active && r.state.alarmStart == s.alarmStart
    ensures s.active && !input.longPress ==> r.state.active
    ensures r.state.winkClock == s.winkClock
    ensures NoEyes(r.draws)
  {
    var o2 := Presses(hour12, s, input);
    var o3 := Turn(hour12, o2.state, -input.encoderPosition);
    NoEyesConcat(o2.draws, o3.draws);
    Out(o3.state, o2.draws + o3.draws)
  }

  /**
    The first half of the display stage: the status overlay, then the
    auto-silence or the wink. Only the auto-silence stops the alarm.
   */
  function Alerts(s: State, now: int): (r: Out)
    ensures SameClock(r.state, s)
    ensures r.state.mode == s.mode && r.state.settings == s.settings && r.state.noAlarm == s.noAlarm
    ensures r.state.alarmStart == s.alarmStart
    ensures r.state.active <==> s.active && !Elapsed(now, s.alarmStart, AUTO_SILENCE)
    ensures !NoEyes(r.draws) ==> s.mode == ShowTime && !s.active && r.state.winkClock == s.winkClock + WINK_INTERVAL
    ensures r.state.winkClock == s.winkClock || r.state.winkClock == s.winkClock + WINK_INTERVAL
  {
    var o4 := StatusOverlay(s, now);
    assert SameClock(o4.state, s) && o4.state.mode == s.mode && o4.state.settings == s.settings
           && o4.state.noAlarm == s.noAlarm && o4.state.active == s.active
           && o4.state.alarmStart == s.alarmStart && o4.state.winkClock == s.winkClock;
    var o5 := SilenceOrWink(o4.state, now);
    NoEyesConcat(o4.draws, o5.draws);
    Out(o5.state, o4.draws + o5.draws)
  }

  /**
    The display stage: the status overlay, the auto-silence or the wink,
    and the alarm scroll or the setting blink. It keeps the mode, the
    settings, the alarm switch and the clock; it silences an alarm that
    has rung a minute; and it winks only on the idle time display.
   */
  function Overlays(hour12: bool, s: State, now: int): (r: Out)
    ensures SameClock(r.state, s)
    ensures r.state.mode == s.mode && r.state.settings == s.settings && r.state.noAlarm == s.noAlarm
    ensures r.state.active ==> s.active && r.state.alarmStart == s.alarmStart
    ensures s.active && Elapsed(now, s.alarmStart, AUTO_SILENCE) ==> !r.state.active
    ensures s.active && !Elapsed(now, s.alarmStart, AUTO_SILENCE) ==> r.state.active && r.state.alarmStart == s.alarmStart
    ensures !NoEyes(r.draws) ==> s.mode == ShowTime && !s.active && r.state.winkClock == s.winkClock + WINK_INTERVAL
    ensures r.state.winkClock == s.winkClock || r.state.winkClock == s.winkClock + WINK_INTERVAL
  {
    var o5 := Alerts(s, now);
    var o6 := Animate(hour12, o5.state, now);
    assert SameClock(o6.state, o5.state) && o6.state.mode == s.mode && o6.state.settings == s.settings
           && o6.state.noAlarm == s.noAlarm && o6.state.active == o5.state.active
           && o6.state.alarmStart == s.alarmStart && o6.state.winkClock == o5.state.winkClock;
    NoEyesConcat(o5.draws, o6.draws);
    Out(o6.state, o5.draws + o6.draws)
  }

  /**
    The time-keeping stage, on the time display only: the resync and the
    tick. A setting mode leaves everything as it is. The alarm can start
    only here, by the tick, at the alarm's minute.
   */
  function Timekeeping(hour12: bool, s: State, now: int, ntp: NtpTime): (r: Out)
    ensures s.mode != ShowTime ==> r == Out(s, [])
    ensures r.state.mode == s.mode && r.state.settings == s.settings && r.state.noAlarm == s.noAlarm
    ensures r.state.winkClock == s.winkClock
    ensures s.active ==> r.state.active
    ensures r.state.active && !s.active ==>
              s.mode == ShowTime && AlarmDue(r.state) && r.state.alarmStart == now && r.state.scrollOffset == 0
              && r.state.clockClock == s.clockClock + CLOCK_INTERVAL
              && (Normal(s.time) && ValidNtp(ntp) ==> r.state.time.seconds == 0)
    ensures r.state.active && s.active ==> r.state.alarmStart == s.alarmStart || r.state.alarmStart == now
    ensures NoEyes(r.draws)
  {
    var o7 := Resync(hour12, s, now, ntp);
    var o8 := LocalTick(hour12, o7.state, now);
    NoEyesConcat(o7.draws, o8.draws);
    Out(o8.state, o7.draws + o8.draws)
  }

  /**
    One pass: the final state and every screen update of the pass, in
    order. Only the triple press flips the alarm switch (the auto-silence
    leaves it on), and the wink timer moves, if at all, by one interval.
   */
  function Step(hour12: bool, s: State, input: Input): (r: Out)
    ensures r.state.noAlarm == (s.noAlarm != (input.shortCount == 3))
    ensures r.state.winkClock == s.winkClock || r.state.winkClock == s.winkClock + WINK_INTERVAL
  {
    var c := Controls(hour12, s, input);
    var o := Overlays(hour12, c.state, input.now);
    var t := Timekeeping(hour12, o.state, input.now, input.ntp);
    Out(t.state, c.draws + o.draws + t.draws)
  }
}
