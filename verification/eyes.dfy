/**
  The winking eyes (`draw_winking_eyes`, `perform_wink_animation`): one
  eye centred on each panel, either open or closed.
 */
module Eyes {
  import opened Font
  import opened Canvas

  /** `eye_x`, `eye_y`: where each eye's 5x7 bitmap starts on its panel. */
  const EYE_X: int := 4
  const EYE_Y: int := 1

  /**
    `draw_winking_eyes`: the left eye on the left panel and the right eye on
    the right panel; state 1 closes the left eye, 2 the right one, 3 both.
   */
  function EyesFrame(winkState: int): (f: Frame)
    ensures InBounds(f)
    ensures Pixel(Matrix1, 8, 7) in f <==> !(winkState == 1 || winkState == 3)
    ensures Pixel(Matrix2, 8, 7) in f <==> !(winkState == 2 || winkState == 3)
  {
    OpenEyeHasLash(Matrix1);
    OpenEyeHasLash(Matrix2);
    DrawBitmap(Matrix1, if winkState == 1 || winkState == 3 then EYE_CLOSED else EYE_OPEN, EYE_X, EYE_Y)
    + DrawBitmap(Matrix2, if winkState == 2 || winkState == 3 then EYE_CLOSED else EYE_OPEN, EYE_X, EYE_Y)
  }

  /** `perform_wink_animation`: open, left wink, open, right wink, open. */
  const WINK_SEQUENCE: seq<int> := [0, 1, 0, 2, 0]

  /** A closed eye is the single lid line across native row 4, columns 4..8. */
  lemma ClosedEyeIsLid(panel: Panel, q: Pixel)
    ensures q in DrawBitmap(panel, EYE_CLOSED, EYE_X, EYE_Y)
            <==> q.panel == panel && q.y == 4 && 4 <= q.x <= 8
  {
    DrawBitmapPixel(panel, EYE_CLOSED, EYE_X, EYE_Y, q);
  }

  /** The top-left lash of an open eye: lit when open, dark when closed. */
  lemma OpenEyeHasLash(panel: Panel)
    ensures Pixel(panel, 8, 7) in DrawBitmap(panel, EYE_OPEN, EYE_X, EYE_Y)
    ensures Pixel(panel, 8, 7) !in DrawBitmap(panel, EYE_CLOSED, EYE_X, EYE_Y)
  {
    DrawBitmapPixel(panel, EYE_OPEN, EYE_X, EYE_Y, Pixel(panel, 8, 7));
    ClosedEyeIsLid(panel, Pixel(panel, 8, 7));
  }

  /**
    Each panel shows its own eye: the left panel's pixels are lit exactly
    when the left eye's pattern is, the same for the right, whatever the
    wink state.
   */
  lemma EyesOnTheirPanels(winkState: int, q: Pixel)
    ensures q in EyesFrame(winkState)
            <==> q in DrawBitmap(q.panel, EyePattern(winkState, q.panel), EYE_X, EYE_Y)
  {
    DrawBitmapPixel(Matrix1, EyePattern(winkState, Matrix1), EYE_X, EYE_Y, q);
    DrawBitmapPixel(Matrix2, EyePattern(winkState, Matrix2), EYE_X, EYE_Y, q);
  }

  /** The pattern the eye on a panel shows in a wink state. */
  function EyePattern(winkState: int, panel: Panel): Bitmap {
    if panel == Matrix1 then
      (if winkState == 1 || winkState == 3 then EYE_CLOSED else EYE_OPEN)
    else
      (if winkState == 2 || winkState == 3 then EYE_CLOSED else EYE_OPEN)
  }

  /**
    The wink animation: frames 0, 2 and 4 show both eyes open, frame 1 has
    only the left eye closed and frame 3 only the right one.
   */
  lemma WinkSequenceFrames()
    ensures |WINK_SEQUENCE| == 5
    ensures EyePattern(WINK_SEQUENCE[0], Matrix1) == EYE_OPEN && EyePattern(WINK_SEQUENCE[0], Matrix2) == EYE_OPEN
    ensures EyePattern(WINK_SEQUENCE[1], Matrix1) == EYE_CLOSED && EyePattern(WINK_SEQUENCE[1], Matrix2) == EYE_OPEN
    ensures EyesFrame(WINK_SEQUENCE[2]) == EyesFrame(WINK_SEQUENCE[0])
    ensures EyePattern(WINK_SEQUENCE[3], Matrix1) == EYE_OPEN && EyePattern(WINK_SEQUENCE[3], Matrix2) == EYE_CLOSED
    ensures EyesFrame(WINK_SEQUENCE[4]) == EyesFrame(WINK_SEQUENCE[0])
    ensures Pixel(Matrix1, 8, 7) !in EyesFrame(WINK_SEQUENCE[1]) && Pixel(Matrix2, 8, 7) in EyesFrame(WINK_SEQUENCE[1])
    ensures Pixel(Matrix1, 8, 7) in EyesFrame(WINK_SEQUENCE[3]) && Pixel(Matrix2, 8, 7) !in EyesFrame(WINK_SEQUENCE[3])
  {
    OpenEyeHasLash(Matrix1);
    OpenEyeHasLash(Matrix2);
    EyesOnTheirPanels(1, Pixel(Matrix1, 8, 7));
    EyesOnTheirPanels(1, Pixel(Matrix2, 8, 7));
    EyesOnTheirPanels(2, Pixel(Matrix1, 8, 7));
    EyesOnTheirPanels(2, Pixel(Matrix2, 8, 7));
  }
}
