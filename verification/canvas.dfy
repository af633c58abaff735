/**
  The two 13x9 panels and the pixel writes the drawing helpers make on
  them. Both panels are mounted upside down, so every write goes through a
  180-degree flip; a write that lands outside the panel after the flip is
  dropped without error.

  A frame is the set of lit pixels, in the panel's own (flipped)
  coordinates, that the drawing calls of one screen update produce. Colour
  is uniform within a frame and is carried by the draw command instead.
 */
module Canvas {
  import opened Font

  /** `matrix1` (left, logical columns 0..12) and `matrix2` (right, 13..25). */
  datatype Panel = Matrix1 | Matrix2

  /** A lit pixel at native panel coordinates. */
  datatype Pixel = Pixel(panel: Panel, x: int, y: int)

  type Frame = set<Pixel>

  const PANEL_WIDTH: int := 13
  const PANEL_HEIGHT: int := 9

  predicate OnPanel(x: int, y: int) {
    0 <= x < PANEL_WIDTH && 0 <= y < PANEL_HEIGHT
  }

  /** Every pixel of the frame is on its panel. */
  predicate InBounds(f: Frame) {
    forall p :: p in f ==> OnPanel(p.x, p.y)
  }

  /** The native coordinates a drawing position maps to after the flip. */
  function Flip(panel: Panel, x: int, y: int): (p: Pixel)
    ensures p.panel == panel && x == 12 - p.x && y == 8 - p.y
  {
    Pixel(panel, 12 - x, 8 - y)
  }

  /**
    `draw_pixel_flipped`: one pixel at the flipped position, or nothing when
    the flipped position is off the panel.
   */
  function FlippedPixel(panel: Panel, x: int, y: int): (f: Frame)
    ensures f == {} <==> !(0 <= x < PANEL_WIDTH && 0 <= y < PANEL_HEIGHT)
    ensures forall p :: p in f ==> p == Pixel(panel, 12 - x, 8 - y)
    ensures InBounds(f)
  {
    var p := Flip(panel, x, y);
    if 0 <= p.x < PANEL_WIDTH && 0 <= p.y < PANEL_HEIGHT then {p} else {}
  }

  /**
    The loops of `draw_char` and `draw_eye`: a flipped pixel for every lit
    bit of the bitmap placed with its top-left corner at (x, y).
   */
  function DrawBitmap(panel: Panel, bitmap: Bitmap, x: int, y: int): (f: Frame)
    ensures InBounds(f)
    ensures forall p :: p in f ==> p.panel == panel
  {
    set row, col | 0 <= row < 7 && 0 <= col < 5 && BitSet(bitmap[row], col)
                   && OnPanel(12 - (x + col), 8 - (y + row))
      :: Flip(panel, x + col, y + row)
  }

  /** Is a panel pixel lit by the bitmap placed at (x, y), read back through the flip? */
  predicate LitAt(bitmap: Bitmap, x: int, y: int, px: int, py: int) {
    var col, row := 12 - px - x, 8 - py - y;
    0 <= row < 7 && 0 <= col < 5 && BitSet(bitmap[row], col)
  }

  /**
    The frame of a bitmap read pixel by pixel: a pixel is lit exactly when
    it is on the bitmap's panel, on the panel's area, and the bitmap bit
    that the flip sends there is set.
   */
  lemma DrawBitmapPixel(panel: Panel, bitmap: Bitmap, x: int, y: int, q: Pixel)
    ensures q in DrawBitmap(panel, bitmap, x, y)
            <==> q.panel == panel && OnPanel(q.x, q.y) && LitAt(bitmap, x, y, q.x, q.y)
  {
    if q.panel == panel && OnPanel(q.x, q.y) && LitAt(bitmap, x, y, q.x, q.y) {
      var col, row := 12 - q.x - x, 8 - q.y - y;
      assert Flip(panel, x + col, y + row) == q;
    }
  }

  /** The pixels of a frame that lie on one panel. */
  function OnPanelOnly(f: Frame, panel: Panel): (r: Frame)
    ensures r <= f
    ensures forall p :: p in r ==> p.panel == panel
    ensures forall p :: p in f && p.panel == panel ==> p in r
  {
    set p | p in f && p.panel == panel
  }
}
