/**
  What one pass of the main loop, and a run of passes, guarantees: the
  variables stay in their ranges, the clock stands still while the alarm
  is being set, the alarm starts only on its minute and rings at most a
  minute, the eyes wink only on the idle time display, and the alarms are
  switched off and on only by the triple press.
 */
module MainLoop {
  import opened Clock
  import opened Timers
  import opened Display
  import opened Controller
  import opened Scroll

  // ----- The ranges are kept -----

  lemma LongPressKeepsValid(hour12: bool, s: State)
    requires Valid(s)
    ensures Valid(LongPress(hour12, s).state)
  {
    if s.active {
      assert LongPress(hour12, s).state.scrollOffset == 0;
    }
  }

  lemma TurnKeepsValid(hour12: bool, s: State, position: int)
    requires Valid(s)
    ensures Valid(Turn(hour12, s, position).state)
  {
    if position != s.lastPosition {
      var delta := if position > s.lastPosition then 1 else -1;
      assert InRange(Adjust(hour12, s.mode, s.settings, delta));
    }
  }

  lemma ShortPressKeepsValid(s: State, count: nat, now: int)
    requires Valid(s)
    ensures Valid(ShortPress(s, count, now).state)
  {
  }

  lemma PressesKeepValid(hour12: bool, s: State, input: Input)
    requires Valid(s)
    ensures Valid(Presses(hour12, s, input).state)
  {
    var o1 := if input.longPress then LongPress(hour12, s) else Out(s, []);
    if input.longPress { LongPressKeepsValid(hour12, s); }
    ShortPressKeepsValid(o1.state, input.shortCount, input.now);
  }

  /** The input stage keeps the ranges. */
  lemma ControlsKeepValid(hour12: bool, s: State, input: Input)
    requires Valid(s)
    ensures Valid(Controls(hour12, s, input).state)
  {
    var o2 := Presses(hour12, s, input);
    assert Valid(o2.state) by { PressesKeepValid(hour12, s, input); }
    var o3 := Turn(hour12, o2.state, -input.encoderPosition);
    assert Valid(o3.state) by { TurnKeepsValid(hour12, o2.state, -input.encoderPosition); }
    assert Controls(hour12, s, input).state == o3.state;
  }

  lemma StatusOverlayKeepsValid(s: State, now: int)
    requires Valid(s)
    ensures Valid(StatusOverlay(s, now).state)
  {
    if s.showingStatus {
      var o1 := StatusScroll(s, now);
      assert Valid(o1.state);
      assert Valid(StatusEnd(o1.state, now).state);
    }
  }

  lemma SilenceOrWinkKeepsValid(s: State, now: int)
    requires Valid(s)
    ensures Valid(SilenceOrWink(s, now).state)
  {
  }

  lemma AnimateKeepsValid(hour12: bool, s: State, now: int)
    requires Valid(s)
    ensures Valid(Animate(hour12, s, now).state)
  {
  }

  /** The display stage keeps the ranges. */
  lemma OverlaysKeepValid(hour12: bool, s: State, now: int)
    requires Valid(s)
    ensures Valid(Overlays(hour12, s, now).state)
  {
    var o4 := StatusOverlay(s, now);
    StatusOverlayKeepsValid(s, now);
    var o5 := SilenceOrWink(o4.state, now);
    SilenceOrWinkKeepsValid(o4.state, now);
    AnimateKeepsValid(hour12, o5.state, now);
    assert Overlays(hour12, s, now).state == Animate(hour12, o5.state, now).state;
  }

  /** The time-keeping stage keeps the ranges, given a real time of day from the network. */
  lemma TimekeepingKeepsValid(hour12: bool, s: State, now: int, ntp: NtpTime)
    requires Valid(s) && ValidNtp(ntp)
    ensures Valid(Timekeeping(hour12, s, now, ntp).state)
  {
    var o7 := Resync(hour12, s, now, ntp);
    assert Valid(o7.state);
  }

  /**
    A pass keeps every variable in its range: the colour, the alarm hour
    and minute on their wheels, the clock's minutes and seconds below 60,
    the brightness one of its two tiers, and both scroll positions within
    their texts' cycles.
   */
  lemma {:induction false} StepKeepsValid(hour12: bool, s: State, input: Input)
    requires Valid(s) && ValidNtp(input.ntp)
    ensures Valid(Step(hour12, s, input).state)
  {
    var c := Controls(hour12, s, input);
    ControlsKeepValid(hour12, s, input);
    var o := Overlays(hour12, c.state, input.now);
    OverlaysKeepValid(hour12, c.state, input.now);
    TimekeepingKeepsValid(hour12, o.state, input.now, input.ntp);
  }

  /** A run of passes, one per input. */
  function Run(hour12: bool, s: State, inputs: seq<Input>): State
    decreases |inputs|
  {
    if |inputs| == 0 then s else Run(hour12, Step(hour12, s, inputs[0]).state, inputs[1..])
  }

  /** Every network reading of the run is a real time of day. */
  predicate ValidReadings(inputs: seq<Input>) {
    forall i :: 0 <= i < |inputs| ==> ValidNtp(inputs[i].ntp)
  }

  /** The ranges hold for ever: through any run of passes from a valid state. */
  lemma {:induction false} RunKeepsValid(hour12: bool, s: State, inputs: seq<Input>)
    requires Valid(s) && ValidReadings(inputs)
    ensures Valid(Run(hour12, s, inputs))
    decreases |inputs|
  {
    if |inputs| > 0 {
      StepKeepsValid(hour12, s, inputs[0]);
      assert ValidReadings(inputs[1..]) by {
        forall i | 0 <= i < |inputs[1..]| ensures ValidNtp(inputs[1..][i].ntp) {
          assert inputs[1..][i] == inputs[i + 1];
        }
      }
      RunKeepsValid(hour12, Step(hour12, s, inputs[0]).state, inputs[1..]);
    }
  }

  // ----- The alarm's PM flag -----

  /**
    In 12-hour mode, once the alarm's PM flag agrees with its hour, every
    pass keeps it so: entering hour setting by a long press and turning the
    knob there both recompute it.
   */
  lemma {:induction false} StepKeepsPmAgreement(hour12: bool, s: State, input: Input)
    requires AlarmPmAgrees(hour12, s)
    ensures AlarmPmAgrees(hour12, Step(hour12, s, input).state)
  {
    var o1 := if input.longPress then LongPress(hour12, s) else Out(s, []);
    assert AlarmPmAgrees(hour12, o1.state);
    var o2 := ShortPress(o1.state, input.shortCount, input.now);
    var o3 := Turn(hour12, o2.state, -input.encoderPosition);
    if -input.encoderPosition != o2.state.lastPosition {
      var delta := if -input.encoderPosition > o2.state.lastPosition then 1 else -1;
      assert PmAgrees(hour12, Adjust(hour12, o2.state.mode, o2.state.settings, delta));
    }
  }

  // ----- Modes and the clock -----

  /**
    The mode a pass ends in: a short press alone moves to the next mode; a
    long press on the idle time display enters hour setting (and a short
    press in the same pass moves on to minute setting); nothing else
    changes the mode.
   */
  lemma {:induction false} StepMode(hour12: bool, s: State, input: Input)
    ensures var m := Step(hour12, s, input).state.mode;
            var entered := input.longPress && s.mode == ShowTime && !s.active;
            (entered ==> m == (if input.shortCount == 1 then SetMinute else SetHour))
            && (!entered && input.shortCount == 1 ==> m == Next(s.mode))
            && (!entered && input.shortCount != 1 ==> m == s.mode)
  {
    var c := Controls(hour12, s, input);
    ControlsMode(hour12, s, input);
    assert Step(hour12, s, input).state.mode == c.state.mode by {
      var o := Overlays(hour12, c.state, input.now);
      assert Step(hour12, s, input).state == Timekeeping(hour12, o.state, input.now, input.ntp).state;
    }
  }

  /** The mode the input stage leaves: the long press first, then the short presses. */
  lemma ControlsMode(hour12: bool, s: State, input: Input)
    ensures var entered := input.longPress && s.mode == ShowTime && !s.active;
            var afterLong := if entered then SetHour else s.mode;
            Controls(hour12, s, input).state.mode == (if input.shortCount == 1 then Next(afterLong) else afterLong)
  {
    var o1 := if input.longPress then LongPress(hour12, s) else Out(s, []);
    var o2 := ShortPress(o1.state, input.shortCount, input.now);
    assert Controls(hour12, s, input).state == Turn(hour12, o2.state, -input.encoderPosition).state;
  }

  /**
    The clock stands still while the alarm is being set: after a pass that
    ends in a setting mode, the time, its string, the PM flag, the tick and
    resync timers and the first-sync flag are as they were.
   */
  lemma ClockStandsStillWhileSetting(hour12: bool, s: State, input: Input)
    requires Step(hour12, s, input).state.mode != ShowTime
    ensures SameClock(Step(hour12, s, input).state, s)
  {
  }

  /**
    The first pass that stays on the time display fetches the time from
    the network, whatever else it does; the clock then reads the fetched
    time, or one second more when the tick also fired.
   */
  lemma FirstPassSyncs(cfg: Config, start: int, input: Input)
    requires !input.longPress && input.shortCount != 1
    ensures var r := Step(cfg.hour12, Init(cfg, start), input).state;
            var fetched := Time(input.ntp.hour, input.ntp.min, input.ntp.sec);
            !r.firstRun && (r.time == fetched || r.time == Tick(fetched).time)
  {
    var s := Init(cfg, start);
    StepMode(cfg.hour12, s, input);
    var c := Controls(cfg.hour12, s, input);
    var o := Overlays(cfg.hour12, c.state, input.now);
    var o7 := Resync(cfg.hour12, o.state, input.now, input.ntp);
    assert o7.state.time == Time(input.ntp.hour, input.ntp.min, input.ntp.sec) && !o7.state.firstRun;
  }

  // ----- The alarm -----

  /**
    The alarm starts only by the tick of a time display pass, at the start
    of the alarm's minute with alarms enabled: the clock then reads the
    alarm hour and minute with zero seconds, the ringing is timed from
    `now` and the scroll starts from its first column.
   */
  lemma {:induction false} AlarmStartsOnlyOnItsMinute(hour12: bool, s: State, input: Input)
    requires Valid(s) && ValidNtp(input.ntp)
    requires !s.active && Step(hour12, s, input).state.active
    ensures var r := Step(hour12, s, input).state;
            r.mode == ShowTime && AlarmDue(r) && r.time.seconds == 0
            && r.alarmStart == input.now && r.scrollOffset == 0
            && r.clockClock == s.clockClock + CLOCK_INTERVAL
  {
    var c := Controls(hour12, s, input);
    ControlsKeepValid(hour12, s, input);
    var o := Overlays(hour12, c.state, input.now);
    OverlaysKeepValid(hour12, c.state, input.now);
  }

  /**
    An alarm rings at most a minute: in a pass that begins a minute or more
    after it started, it is silenced, and it rings after the pass only if
    it has just started again.
   */
  lemma {:induction false} RingingEndsAfterAMinute(hour12: bool, s: State, input: Input)
    requires s.active && Elapsed(input.now, s.alarmStart, AUTO_SILENCE)
    ensures var r := Step(hour12, s, input).state;
            r.active ==> r.alarmStart == input.now
  {
    var c := Controls(hour12, s, input);
    var o := Overlays(hour12, c.state, input.now);
    assert !o.state.active;
  }

  /**
    An alarm rings for its full minute: a pass that begins less than a
    minute after it started, with no long press, leaves it ringing, timed
    from its start or, when its minute has just come round again, from `now`.
   */
  lemma {:induction false} RingsForItsMinute(hour12: bool, s: State, input: Input)
    requires s.active && !input.longPress && !Elapsed(input.now, s.alarmStart, AUTO_SILENCE)
    ensures var r := Step(hour12, s, input).state;
            r.active && (r.alarmStart == s.alarmStart || r.alarmStart == input.now)
  {
    var c := Controls(hour12, s, input);
    assert c.state.active && c.state.alarmStart == s.alarmStart;
    var o := Overlays(hour12, c.state, input.now);
    assert o.state.active && o.state.alarmStart == s.alarmStart;
  }

  /**
    An alarm set for a minute of hour 0 is missed on a night the clock
    runs past midnight on its own: the tick counts the hour on to 24 and
    beyond, which never equals an alarm hour below 24.
   */
  lemma MidnightAlarmMissed(hour12: bool, s: State, now: int)
    requires InRange(s.settings) && !s.active && s.time.hour >= 24
    ensures !LocalTick(hour12, s, now).state.active
  {
  }

  /**
    The tick timer is not restarted by a resync. When the time display
    comes back after a stay in a setting mode long enough for the resync
    to fall due, the resync sets the network time, and then every pass
    ticks until the tick timer has caught up: two passes in the same
    millisecond already count two seconds on from the fetched time.
   */
  lemma {:induction false} ClockRunsAheadAfterResync(hour12: bool, s: State, now: int, ntp: NtpTime)
    requires s.mode == ShowTime && ValidNtp(ntp)
    requires Elapsed(now, s.refreshClock, REFRESH_INTERVAL) && !Elapsed(now, s.refreshClock, 2 * REFRESH_INTERVAL)
    requires Elapsed(now, s.clockClock, 2 * CLOCK_INTERVAL)
    ensures var r1 := Timekeeping(hour12, s, now, ntp).state;
            var r2 := Timekeeping(hour12, r1, now, ntp).state;
            r2.time == Ticks(Time(ntp.hour, ntp.min, ntp.sec), 2)
  {
    var fetched := Time(ntp.hour, ntp.min, ntp.sec);
    var o7 := Resync(hour12, s, now, ntp);
    assert o7.state.time == fetched && o7.state.clockClock == s.clockClock;
    var r1 := Timekeeping(hour12, s, now, ntp).state;
    assert r1 == LocalTick(hour12, o7.state, now).state;
    assert r1.time == Tick(fetched).time && r1.clockClock == s.clockClock + CLOCK_INTERVAL;
    assert r1.refreshClock == s.refreshClock + REFRESH_INTERVAL && !r1.firstRun;
    assert Resync(hour12, r1, now, ntp).state == r1;
    assert Ticks(fetched, 2) == Tick(Tick(fetched).time).time;
  }

  /**
    The scroll timer is not restarted when the alarm starts: with the timer
    two intervals or more behind, two passes in the same millisecond both
    draw and step "WAKE UP ".
   */
  lemma {:induction false} WakeUpCatchesUp(hour12: bool, s: State, now: int)
    requires s.active && Elapsed(now, s.scrollClock, 2 * SCROLL_INTERVAL)
    ensures var o1 := Animate(hour12, s, now);
            var o2 := Animate(hour12, o1.state, now);
            |o1.draws| == 1 && |o2.draws| == 1
            && o2.state.scrollOffset == ScrollStep(WAKE_UP_TEXT, ScrollStep(WAKE_UP_TEXT, s.scrollOffset))
            && o2.state.scrollClock == s.scrollClock + 2 * SCROLL_INTERVAL
  {
    var o1 := Animate(hour12, s, now);
    assert o1.state.active && o1.state.scrollClock == s.scrollClock + SCROLL_INTERVAL;
  }

  // ----- The eyes -----

  /**
    The eyes wink only on the idle time display: a pass that shows them
    ends on the time display, has moved the wink timer on by exactly its
    interval, and did not begin with a ringing alarm that no long press
    silenced.
   */
  lemma {:induction false} WinkOnlyWhenIdle(hour12: bool, s: State, input: Input)
    requires !NoEyes(Step(hour12, s, input).draws)
    ensures var r := Step(hour12, s, input).state;
            r.mode == ShowTime && r.winkClock == s.winkClock + WINK_INTERVAL
            && !(s.active && !input.longPress)
  {
    var c := Controls(hour12, s, input);
    var o := Overlays(hour12, c.state, input.now);
    var t := Timekeeping(hour12, o.state, input.now, input.ntp);
    NoEyesConcat(c.draws, o.draws);
    NoEyesConcat(c.draws + o.draws, t.draws);
    assert !NoEyes(o.draws);
  }
}
