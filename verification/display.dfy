/**
  The screen updates the main loop makes, as commands, and the frame each
  one puts on the panels. Every command clears both panels first and ends
  with both panels shown, so a frame replaces the previous one entirely.

  The colour of a command is the hue `color_value`; the RGB colour the
  colour wheel maps it to is outside this model.
 */
module Display {
  import opened Canvas
  import opened Text
  import opened Scroll
  import opened Eyes

  datatype Draw =
    | ShowText(text: string, hue: int, isPm: bool)    // draw_text
    | ShowScroll(text: string, offset: int, hue: int) // draw_scrolling_text
    | ShowBlank                                       // both panels filled black and shown
    | ShowEyes(winkState: int, hue: int)              // draw_winking_eyes

  /**
    The lit pixels a command leaves on the panels: none for a blank, and
    never a pixel outside the 13x9 area of its panel.
   */
  function FrameOf(d: Draw): (f: Frame)
    ensures InBounds(f)
    ensures d.ShowBlank? ==> f == {}
  {
    match d
    case ShowText(text, _, isPm) => TextFrame(text, isPm)
    case ShowScroll(text, offset, _) => ScrollFrame(text, offset)
    case ShowBlank => {}
    case ShowEyes(winkState, _) => EyesFrame(winkState)
  }
}
