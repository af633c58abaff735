# LED matrix alarm clock — a Dafny model

This project models `LED_Matrix_Clock/code.py`, the CircuitPython program
of a desk alarm clock. The clock shows the time across two 13x9 RGB LED
matrices (`matrix1` on the left, `matrix2` on the right), both mounted
upside down. It keeps time between hourly network (NTP) syncs, dims itself
at night and plays an alarm while "WAKE UP " scrolls by. It is driven by
a rotary encoder with a push button.

The model covers three parts of the program:

- **Clock arithmetic.** This is the day/night brightness tiers, the
  12-hour display hour with its PM flag, the local one-second tick with
  its carries, the `HH:MM` strings, and the millisecond timers that fire
  once their interval has elapsed and then advance by exactly that interval.
- **Rendering.** Each screen update the loop makes is a set of lit pixels
  in the panels' native (rotated) coordinates:
  - `draw_pixel_flipped`, `draw_char` and `draw_eye`;
  - `draw_colon_split` and `draw_text`;
  - `draw_scrolling_text` and `draw_winking_eyes`.
- **The main loop as a state machine.** One `Controller.Step` is one pass
  of `while True:`. The long press, the short presses and the encoder come
  first. Then come the alarm-status overlay, the auto-silence or the wink,
  and the alarm scroll or the setting blink. The hourly resync and the
  one-second tick come last. Every phase sees the state the previous phase
  left, and returns the screen updates it made, in order.

Modules:

| file | module | what it holds |
|---|---|---|
| `format.dfy` | `Format` | two-digit decimal formatting (`f"{n:02}"`), its inverse, the alarm key string |
| `clock.dfy` | `Clock` | brightness tiers, 12-hour display, the one-second tick |
| `timers.dfy` | `Timers` | the loop's intervals and the elapsed-interval timer rule |
| `font.dfy` | `Font` | `FONT_5X7`, `EYE_OPEN`, `EYE_CLOSED`, the case-insensitive lookup |
| `canvas.dfy` | `Canvas` | panels, pixels, the 180-degree flip, drawing a bitmap |
| `text.dfy` | `Text` | `draw_char`, the split colon with its PM dot, `draw_text` |
| `scroll.dfy` | `Scroll` | `draw_scrolling_text`, the scroll position cycle |
| `eyes.dfy` | `Eyes` | `draw_eye`, `draw_winking_eyes`, the wink sequence of `perform_wink_animation` |
| `display.dfy` | `Display` | the screen-update commands and their frames |
| `controller.dfy` | `Controller` | the loop's variables and every phase of one pass |
| `mainloop.dfy` | `MainLoop` | properties of a pass and of runs of passes |

Some inputs are parameters of each pass (`Controller.Input`):

- the millisecond counter (`now`);
- the debounced button's `long_press` and `short_count`;
- the encoder position;
- the time an NTP request would return.

The configuration at the top of the program is a `Controller.Config`.
Colours are carried as the hue `color_value`; `colorwheel` is not part of
this model.

The code and its comments differ in some places, and the model follows
the code:

- The local tick adds one to the hour and never reduces it modulo 24.
  Between a midnight rollover and the next hourly resync the hour reads
  24, 25 and so on. In 12-hour mode that shows as 12, 1, … with the PM dot
  lit (`Clock.PastMidnightShowsPm`). In 24-hour mode it shows as "24:00".
- A short press from the time display into alarm-hour setting does not
  recompute `alarm_is_pm`. The hour text keeps the previous flag until the
  knob is turned. A long press does recompute it.
- No animation timer is ever restarted; each advances by exactly its
  interval when it fires. The alarm-status overlay restarts at offset 0
  with its old 100 ms timer, the "WAKE UP " scroll starts with the 80 ms
  timer left from the previous alarm, the 500 ms setting blink starts with
  the timer left from the previous edit, and the 30 s wink timer stands
  still while the time display is not idle. So after a pause each fires on
  every pass until it has caught up, rather than at its nominal rate
  (`MainLoop.WakeUpCatchesUp`).
- The encoder, the status overlay and the short-press blink into minute
  setting draw even while the alarm rings. The 500 ms setting blink does
  not. A manual silence (long press) does not redraw the time; the
  auto-silence does.
- Because the hour is not reduced, an alarm for a minute of hour 0 is
  missed on a night the clock passes midnight by its own tick; it can only
  match after the next resync brings the hour back to 0
  (`MainLoop.MidnightAlarmMissed`).
- A resync does not restart the tick timer. After a stay in a setting
  mode long enough for the resync to fall due, the tick then fires on
  every pass until its timer catches up. The clock runs ahead of the
  network time by the length of the stay until the next resync
  (`MainLoop.ClockRunsAheadAfterResync`).

## Model

| member | source | states |
|---|---|---|
| Format.Pad2 | LED_Matrix_Clock/code.py:717 | `f"{n:02}"` is all digits, at least two of them, and exactly two precisely when n < 100 |
| Format.Pad2RoundTrip | LED_Matrix_Clock/code.py:752 | reading back the two digits of a padded number below 100 gives the number |
| Format.Pad2Injective | LED_Matrix_Clock/code.py:752 | two numbers below 100 are padded alike exactly when they are equal |
| Format.AlarmKey | LED_Matrix_Clock/code.py:518 | the `"HH:MM"` key is five characters exactly when both parts are below 100 |
| Format.AlarmKeyMatch | LED_Matrix_Clock/code.py:757 | comparing the clock's key with the alarm's key is comparing hour and minute as integers, even for a clock hour past 99 |
| Clock.BrightnessFor | LED_Matrix_Clock/code.py:84-91 | the night level exactly for hours from 20 on and before 7, the day level exactly for the others |
| Clock.TierChangesAtBoundaries | LED_Matrix_Clock/code.py:86-88 | for every hour, including those past 23 that the unreduced clock reaches, the level changes between consecutive hours only at 6→7 and 19→20 |
| Clock.UpdateBrightness | LED_Matrix_Clock/code.py:93-102 | the level becomes that of the hour, and the panels are rescaled exactly when it differs from the current one |
| Clock.UpdateBrightnessIdempotent | LED_Matrix_Clock/code.py:98 | a second update for the same hour rescales nothing |
| Clock.ToDisplay | LED_Matrix_Clock/code.py:709-716 | in 12-hour mode the shown hour is 1..12 and congruent to the hour modulo 12, with PM exactly from hour 12 on; in 24-hour mode the hour is shown as is, never PM |
| Clock.DisplayRoundTrip | LED_Matrix_Clock/code.py:709-716 | the 12-hour hour and PM flag determine the 24-hour hour of a real day |
| Clock.PastMidnightShowsPm | LED_Matrix_Clock/code.py:737-747 | after 23:59:59 the tick reads hour 24, which shows as 12 with the PM dot and does not read back as hour 0 |
| Clock.Tick | LED_Matrix_Clock/code.py:730-742 | a tick of a normal time is one second later in total seconds, stays normal, rolls the hour exactly at mm:59:59, and starts a new minute exactly when the seconds were 59 |
| Clock.TicksAdvance | LED_Matrix_Clock/code.py:730-742 | n ticks of a normal time advance it by exactly n seconds, never leaving the normal ranges |
| Clock.TotalSecondsInjective | LED_Matrix_Clock/code.py:731-740 | normal times with the same total seconds are the same time, so the tick is determined by the count |
| Clock.AnHourOfTicks | LED_Matrix_Clock/code.py:730-742 | 3600 ticks move a normal time on by exactly one hour |
| Timers.PollTimer | LED_Matrix_Clock/code.py:607 | a timer fires exactly when its interval has elapsed, and then advances by exactly the interval, never past `now` |
| Timers.NoDrift | LED_Matrix_Clock/code.py:626 | over any non-decreasing sequence of poll times, a timer's reference is its start plus one interval per firing, never past the last poll, and a last poll an interval or more after the start fires it at least once |
| Font.Upper | LED_Matrix_Clock/code.py:327 | `upper()` maps ASCII lower-case letters to their capitals and leaves every other character alone |
| Font.Glyph | LED_Matrix_Clock/code.py:327-328 | a character is drawable exactly when it or its capital is in the font, and then its bitmap is the capital's |
| Font.GlyphIgnoresCase | LED_Matrix_Clock/code.py:327 | a letter draws exactly like its capital |
| Canvas.Flip | LED_Matrix_Clock/code.py:320-321 | the flip rotates a coordinate by 180 degrees on the 13x9 panel |
| Canvas.FlippedPixel | LED_Matrix_Clock/code.py:318-323 | a point lights the single rotated pixel when the rotation lands on the panel, and nothing otherwise |
| Canvas.DrawBitmap | LED_Matrix_Clock/code.py:334-339 | a bitmap lights pixels only on its own panel and within its bounds |
| Canvas.DrawBitmapPixel | LED_Matrix_Clock/code.py:336-339 | a pixel is lit exactly when the bitmap bit at its rotated row and column is set |
| Text.DrawChar | LED_Matrix_Clock/code.py:325-332 | a character lights pixels on its panel only, and none at all when the font lacks it |
| Text.DrawCharColumns | LED_Matrix_Clock/code.py:329-332 | a character at (x, y) lights only the rotated 5x7 cell at (x, y) |
| Text.SpaceIsBlank | LED_Matrix_Clock/code.py:327-332 | a space lights nothing |
| Text.ColonPixel | LED_Matrix_Clock/code.py:377-394 | the colon lights the seam column of both panels in rows y+1, y+2, y+4, y+5, plus y+6 when PM, and nothing else |
| Text.ColonMirrored | LED_Matrix_Clock/code.py:380-394 | each lit colon pixel has its mirror image lit on the other panel |
| Text.ColonPmDot | LED_Matrix_Clock/code.py:391-394 | the third dot below the colon is lit exactly in PM |
| Text.ColonCount | LED_Matrix_Clock/code.py:377-394 | the colon lights 8 pixels, or 10 with the PM dot |
| Text.Colon | LED_Matrix_Clock/code.py:377-394 | the split colon lights pixels only on the panels and only in their seam columns |
| Text.LeadingPairAwayFromSeam | LED_Matrix_Clock/code.py:412-414 | the first two characters never touch the left panel's seam columns |
| Text.TrailingPairAwayFromSeam | LED_Matrix_Clock/code.py:421-423 | the last two characters never touch the right panel's seam columns |
| Text.TextFrame | LED_Matrix_Clock/code.py:396-428 | the text frame stays on the panels, and a text shorter than two characters lights nothing |
| Text.PmDotShown | LED_Matrix_Clock/code.py:417-418 | on a five-character text with a colon, the PM dot is lit exactly when the PM flag is set |
| Text.MinutesBlank | LED_Matrix_Clock/code.py:421-423 | with two blanks after the colon, the right panel shows only the colon's half |
| Text.HoursBlank | LED_Matrix_Clock/code.py:411-414 | with two blanks before the colon, the left panel shows only the colon's half |
| Text.TextCells | LED_Matrix_Clock/code.py:409-423 | each of the four character cells of the frame shows exactly its character |
| Text.ClockGlyphsDistinct | LED_Matrix_Clock/code.py:114-297 | the glyphs of the ten digits and the space are pairwise different |
| Text.ClockCharShown | LED_Matrix_Clock/code.py:325-332 | a clock character can be read back from the pixels of its cell |
| Text.ClockTextDecodes | LED_Matrix_Clock/code.py:396-428 | two clock texts that light the same pixels are the same text with the same PM flag |
| Scroll.Placement | LED_Matrix_Clock/code.py:450-462 | a character goes to the left panel exactly from x = -5 to 12, to the right panel exactly from 13 to 25 (at x - 13), and nowhere otherwise |
| Scroll.ScrollFromPixel | LED_Matrix_Clock/code.py:446-462 | a pixel of the scroll is lit exactly when some character of the text lights it at its own position |
| Scroll.ScrollFrame | LED_Matrix_Clock/code.py:430-466 | the scroll stays on the panels, and lights nothing before the text enters (offset 0 or less) or after its last character has left |
| Scroll.ScrollFrom | LED_Matrix_Clock/code.py:446-462 | the characters from an index on stay on the panels and light nothing while all of them are off the panels |
| Scroll.GlyphPlacement | LED_Matrix_Clock/code.py:446-462 | a scrolled character lights what it would on a seamless 26-column canvas, except that one starting in columns 8 to 12 keeps only its left-panel part |
| Scroll.ScrollExactWhenNoSeamGlyph | LED_Matrix_Clock/code.py:444-462 | at offsets of 1 modulo 6, where no character starts in columns 8 to 12, the scroll is exactly the text on the 26-column canvas |
| Scroll.SeamClipsGlyph | LED_Matrix_Clock/code.py:450-462 | a witness that the cut loses pixels: "W" at scroll offset 17 starts at column 9 and loses a right-panel pixel that the glyph placed on the canvas would light |
| Scroll.SeamClipsAny | LED_Matrix_Clock/code.py:450-462 | every character starting in columns 8 to 12 lights nothing on the right panel: its right-panel part is never drawn |
| Scroll.ScrollStep | LED_Matrix_Clock/code.py:620-624 | the position moves on by one, and returns to 0 exactly after the last position text width + 26 |
| Scroll.ScrollCounts | LED_Matrix_Clock/code.py:665-669 | within one cycle the position after n steps is n |
| Scroll.ScrollCycles | LED_Matrix_Clock/code.py:665-669 | the positions repeat with period text width + 27 |
| Scroll.ScrollNoEarlyReset | LED_Matrix_Clock/code.py:667-669 | the position does not return to 0 before the whole text has left |
| Scroll.WakeUpPeriod | LED_Matrix_Clock/code.py:656-669 | the "WAKE UP " scroll is at n mod 75 after n steps |
| Eyes.ClosedEyeIsLid | LED_Matrix_Clock/code.py:308-316 | a closed eye is the lid line alone |
| Eyes.OpenEyeHasLash | LED_Matrix_Clock/code.py:298-306 | an open eye has the lash a closed one lacks |
| Eyes.EyesFrame | LED_Matrix_Clock/code.py:341-366 | the eyes stay on the panels; the left eye is open (its lash lit) exactly in states other than 1 and 3, the right eye exactly in states other than 2 and 3 |
| Eyes.EyesOnTheirPanels | LED_Matrix_Clock/code.py:341-366 | the eyes light the two eye cells, one per panel, and nothing else |
| Eyes.WinkSequenceFrames | LED_Matrix_Clock/code.py:368-375 | the wink goes open, left closed, open, right closed, open |
| Display.FrameOf | LED_Matrix_Clock/code.py:318-323 | no screen update lights a pixel off its panel, and a blank update lights none |
| Controller.Next | LED_Matrix_Clock/code.py:549 | a short press always changes the mode, and returns to the time display exactly from minute setting |
| Controller.ModeCycle | LED_Matrix_Clock/code.py:549 | three short presses bring every mode back |
| Controller.Init | LED_Matrix_Clock/code.py:482-518 | the loop starts on the time display, before the first sync, silent, with the configured alarm and switch, in range when the configured alarm is |
| Controller.TextsAreClockTexts | LED_Matrix_Clock/code.py:551-555 | the time and both setting texts are five-character clock texts, the setting texts with their unused half blank |
| Controller.TimeTextReadsBack | LED_Matrix_Clock/code.py:717 | the time text reads back as the displayed hour and the minute |
| Controller.TimeDisplayDecodes | LED_Matrix_Clock/code.py:751-756 | two times of a real day that light the same pixels are the same time |
| Controller.BlinkAnimation | LED_Matrix_Clock/code.py:468-480 | the blink is three dark frames, each followed by the text |
| Controller.WinkAnimation | LED_Matrix_Clock/code.py:368-375 | the wink draws one eyes frame per step of the wink sequence |
| Controller.LongPress | LED_Matrix_Clock/code.py:523-546 | from the idle time display it enters hour setting; while ringing it silences, rewinds the scroll and restores the hour's brightness without drawing; otherwise nothing happens |
| Controller.EnterHourSetting | LED_Matrix_Clock/code.py:525-539 | entering hour setting makes the PM flag agree with the alarm hour in 12-hour mode, and blinks the hour three times before it stays |
| Controller.ShortPress | LED_Matrix_Clock/code.py:547-562 | one press moves to the next mode, redrawing the time, blinking the minute, or drawing nothing into hour setting; three presses flip the alarm switch and restart the overlay; the settings never change |
| Controller.Adjust | LED_Matrix_Clock/code.py:566-588 | a detent moves the colour by 5 on a 255 wheel, the alarm hour on a 24 wheel or the minute on a 60 wheel, keeping every value in range and the PM flag in agreement |
| Controller.Turn | LED_Matrix_Clock/code.py:564-603 | only a changed encoder position adjusts the mode's setting, one detent in its direction, and then draws the mode's display and remembers the position |
| Controller.TurnUndo | LED_Matrix_Clock/code.py:564-603 | a detent one way and one back restore the whole state |
| Controller.AdjustUndo | LED_Matrix_Clock/code.py:566-587 | a detent and its opposite restore the settings |
| Controller.WheelUndo | LED_Matrix_Clock/code.py:570-587 | on a wheel of 24, 60 or 255 positions a step and its opposite cancel |
| Controller.StatusOverlay | LED_Matrix_Clock/code.py:605-634 | the overlay draws its text at the current position and steps it exactly when its 100 ms timer is due, leaving position and timer alone otherwise; it ends exactly once 3 s have passed, then redrawing the time exactly on the idle time display; nothing else changes |
| Controller.StatusScroll | LED_Matrix_Clock/code.py:607-626 | a due status timer draws the text at its position and steps it |
| Controller.StatusEnd | LED_Matrix_Clock/code.py:628-634 | the overlay ends after 3 s and the time is redrawn exactly on the idle time display |
| Controller.SilenceOrWink | LED_Matrix_Clock/code.py:635-653 | a minute after starting the alarm silences itself and redraws the time, leaving the switch on; before that minute a ringing alarm is left alone; otherwise the eyes wink exactly when the 30 s timer is due on the idle time display, and nothing happens at all when it is not |
| Controller.Animate | LED_Matrix_Clock/code.py:655-695 | while ringing, "WAKE UP " is drawn and stepped exactly when the 80 ms timer is due; while setting, the display toggles between hidden and shown exactly when the 500 ms timer is due; in every other case nothing happens |
| Controller.Resync | LED_Matrix_Clock/code.py:697-727 | on the time display, on the first pass or an hour on, the clock takes the network time, brightness and PM flag follow, and the time is drawn unless the alarm or the overlay has the panels |
| Controller.AlarmDueIsKeyMatch | LED_Matrix_Clock/code.py:757 | the loop's string comparison of clock and alarm is the integer comparison of hour and minute |
| Controller.TickFired | LED_Matrix_Clock/code.py:730-765 | a tick advances the clock, follows the PM flag, rescales on a new hour, and on a new minute rebuilds and draws the time text; the alarm starts, timed from `now` with the scroll rewound, exactly when the new minute is due, and otherwise its start time and scroll are untouched |
| Controller.LocalTick | LED_Matrix_Clock/code.py:729-765 | the tick runs only on the time display once its second has elapsed; an alarm it starts is due, on second 0, and rings from `now` |
| Controller.Controls | LED_Matrix_Clock/code.py:520-603 | the input stage never touches the clock or the wink timer, never starts the alarm, and flips the switch exactly on a triple press |
| Controller.Overlays | LED_Matrix_Clock/code.py:605-695 | the display stage keeps mode, settings, switch and clock; it silences an alarm that has rung a minute and keeps one that has not ringing with its start time; it winks only on the idle time display |
| Controller.Timekeeping | LED_Matrix_Clock/code.py:697-765 | outside the time display nothing changes; the alarm starts only here, at its minute, timed from `now` |
| Controller.Step | LED_Matrix_Clock/code.py:520-765 | a pass flips the alarm switch exactly on a triple press, the auto-silence leaving it on, and moves the wink timer by at most one interval; MainLoop.StepKeepsValid, StepMode, AlarmStartsOnlyOnItsMinute, RingsForItsMinute and WinkOnlyWhenIdle state the rest of a pass |
| MainLoop.StepKeepsValid | LED_Matrix_Clock/code.py:520-765 | a pass keeps every variable in its range |
| MainLoop.RunKeepsValid | LED_Matrix_Clock/code.py:520-765 | any run of passes from a valid state keeps every variable in its range |
| MainLoop.StepKeepsPmAgreement | LED_Matrix_Clock/code.py:525-585 | once the alarm's PM flag agrees with its hour, every pass keeps it so |
| MainLoop.StepMode | LED_Matrix_Clock/code.py:523-550 | the mode after a pass: a short press moves on; a long press on the idle time display enters hour setting; nothing else changes it |
| MainLoop.ControlsMode | LED_Matrix_Clock/code.py:525-549 | the input stage applies the long press first, then the short press |
| MainLoop.ClockStandsStillWhileSetting | LED_Matrix_Clock/code.py:698 | a pass that ends in a setting mode leaves the clock as it was |
| MainLoop.FirstPassSyncs | LED_Matrix_Clock/code.py:699-720 | the first pass on the time display takes the network time |
| MainLoop.AlarmStartsOnlyOnItsMinute | LED_Matrix_Clock/code.py:751-764 | the alarm starts only at second 0 of its minute, with the switch on, on the time display, timed from `now` |
| MainLoop.RingingEndsAfterAMinute | LED_Matrix_Clock/code.py:635-644 | an alarm that has rung a minute is silenced by the pass, and rings afterwards only if it has just restarted |
| MainLoop.RingsForItsMinute | LED_Matrix_Clock/code.py:635-644 | without a long press an alarm that has rung less than a minute keeps ringing, timed from its start or from a restart on its minute |
| MainLoop.WinkOnlyWhenIdle | LED_Matrix_Clock/code.py:646-653 | a pass that shows the eyes ends on the time display and moves the wink timer on by exactly its interval |
| MainLoop.MidnightAlarmMissed | LED_Matrix_Clock/code.py:737-757 | once the clock has counted past midnight on its own (hour 24 or more), the tick never starts an alarm |
| MainLoop.ClockRunsAheadAfterResync | LED_Matrix_Clock/code.py:698-765 | a resync leaves the tick timer as it was, so after a long stay in a setting mode a resync followed by a second time-keeping stage in the same millisecond counts two seconds on from the fetched time |
| MainLoop.WakeUpCatchesUp | LED_Matrix_Clock/code.py:655-671 | the "WAKE UP " timer is not restarted: two intervals behind, two animation stages in one millisecond both draw and each steps the scroll and its timer by one |

## Left out

- Wi-Fi, the NTP client, and the reset after a failed request (lines 39-45, 700-727) are left out. The time a request would return is an input of each pass; a failed request is not modelled.
- The I2C matrix drivers are left out: `fill`, `show`, `global_current` and `enable`. The 180-degree rotation the program applies itself in `draw_pixel_flipped` is modelled (`Canvas.Flip`). A frame is the set of lit pixels after `show`; `set_led_scaling` is the `brightness` variable.
- The I2S audio, the mixer, the random choice of a wav file and `alarm_volume` are left out (lines 66-82). An alarm that plays is `active`.
- `colorwheel` is left out: the hue `color_value` stands for the colour it gives.
- The debouncer and the seesaw encoder are left out. `long_press`, `short_count` and the encoder position are inputs of each pass.
- `ticks_ms` wrap-around is not modelled. `ticks_diff` and `ticks_add` are exact integer arithmetic on unbounded milliseconds.
- The loop reads `ticks_ms()` several times per pass; the model reads it once per pass (`now`).
- The `time.sleep` calls inside the blink, the wink and the retry are left out. The animation frames are the ordered list of screen updates; their timing is not.
- `print` is left out.
- `char.upper()` is modelled for ASCII only. Every character the font holds is ASCII.
- The clock's `mins`, `seconds` and `am_pm_hour` are undefined in the source before the first sync. The model starts them at 0, and the first pass on the time display always syncs (`MainLoop.FirstPassSyncs`).
- `timezone` is left out; it only configures the NTP client.
- Controller.Init: its range guarantee needs a configured alarm hour below 24 and minute below 60. The source does not check its configuration.
- MainLoop.StepKeepsValid: it assumes every network reading is a real time of day (hour below 24, minute and second below 60).
- MainLoop.FirstPassSyncs: it is stated for passes that stay on the time display (no long press and no single short press). A pass that leaves the display defers the sync.
- Clock.TicksAdvance: it is stated in total seconds. It does not bound the hour to a day, because the source does not either.
