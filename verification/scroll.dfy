/**
  Scrolling text (`draw_scrolling_text`) and its offset counter.

  Character `i` of the text starts at logical column `26 - offset + 6 * i`.
  A character starting in [-5, 13) is drawn on the left panel; otherwise
  one starting in [8, 26) is drawn on the right panel, 13 columns to the
  left. Because the second test is an `else`, a character starting in
  [8, 13) is drawn only on the left panel, and its columns beyond the seam
  are clipped away; `GlyphPlacement` states this exactly against a
  reference rendering on the joint 26-column canvas.
 */
module Scroll {
  import opened Font
  import opened Canvas
  import opened Text

  const TOTAL_WIDTH: int := 26
  const CHAR_WIDTH: int := 6

  const WAKE_UP_TEXT: string := "WAKE UP "
  const STATUS_ON_TEXT: string := "ON "
  const STATUS_OFF_TEXT: string := "OFF "

  /** The logical column where character `i` starts at a given offset. */
  function CharX(offset: int, i: int): int {
    TOTAL_WIDTH - offset + i * CHAR_WIDTH
  }

  /** Where a character starting at logical column `charX` is drawn, if at all. */
  datatype Slot = DrawnOn(panel: Panel, x: int) | Skipped

  /** The panel test of `draw_scrolling_text`. */
  function Placement(charX: int): (s: Slot)
    ensures s.DrawnOn? && s.panel == Matrix1 <==> -5 <= charX < 13
    ensures s.DrawnOn? && s.panel == Matrix2 <==> 13 <= charX < 26
    ensures s.DrawnOn? ==> s.x == (if s.panel == Matrix1 then charX else charX - 13)
  {
    if -5 <= charX < 13 then DrawnOn(Matrix1, charX)
    else if 8 <= charX < 26 then DrawnOn(Matrix2, charX - 13)
    else Skipped
  }

  /** The pixels one character contributes to a scrolling frame. */
  function GlyphFrame(c: char, charX: int): (f: Frame)
    ensures InBounds(f)
  {
    match Placement(charX)
    case DrawnOn(panel, x) => DrawChar(panel, c, x, TEXT_Y)
    case Skipped => {}
  }

  /** The characters from index `i` on. */
  function ScrollFrom(text: string, offset: int, i: nat): (f: Frame)
    ensures InBounds(f)
    ensures offset <= 0 || offset > |text| * CHAR_WIDTH + 25 ==> f == {}
    decreases |text| - i
  {
    if i >= |text| then {} else GlyphFrame(text[i], CharX(offset, i)) + ScrollFrom(text, offset, i + 1)
  }

  /** `draw_scrolling_text`: every character of the text at its scrolled position. */
  function ScrollFrame(text: string, offset: int): (f: Frame)
    ensures InBounds(f)
    ensures offset <= 0 || offset > |text| * CHAR_WIDTH + 25 ==> f == {}
  {
    ScrollFrom(text, offset, 0)
  }

  /** Is `q` lit by one of the characters from index `i` on? */
  predicate LitByCharFrom(text: string, offset: int, i: nat, q: Pixel) {
    exists k :: i <= k < |text| && q in GlyphFrame(text[k], CharX(offset, k))
  }

  /** A pixel of a scrolling frame is exactly one lit by some character at its position. */
  lemma {:induction false} ScrollFromPixel(text: string, offset: int, i: nat, q: Pixel)
    ensures q in ScrollFrom(text, offset, i) <==> LitByCharFrom(text, offset, i, q)
    decreases |text| - i
  {
    if i < |text| {
      ScrollFromPixel(text, offset, i + 1, q);
      LitByCharStep(text, offset, i, q);
    }
  }

  /** A character from index `i` on is character `i` or one after it. */
  lemma LitByCharStep(text: string, offset: int, i: nat, q: Pixel)
    requires i < |text|
    ensures LitByCharFrom(text, offset, i, q)
            <==> q in GlyphFrame(text[i], CharX(offset, i)) || LitByCharFrom(text, offset, i + 1, q)
  {
    if LitByCharFrom(text, offset, i, q) {
      var k :| i <= k < |text| && q in GlyphFrame(text[k], CharX(offset, k));
      if k > i {
        assert i + 1 <= k < |text|;
      }
    }
    if q in GlyphFrame(text[i], CharX(offset, i)) {
      assert i <= i < |text|;
    }
  }

  // ----- Reference rendering on the joint 26x9 canvas -----

  /** The panel pixel showing logical canvas column `x` (0..25), row `y`. */
  function CanvasPixel(x: int, y: int): Pixel {
    if x < 13 then Flip(Matrix1, x, y) else Flip(Matrix2, x - 13, y)
  }

  /**
    What a character starting at logical column `charX` would light on the
    joint canvas: every lit bit whose column falls within the 26 columns.
   */
  function GlyphOnCanvas(c: char, charX: int): Frame {
    match Glyph(c)
    case Missing => {}
    case Found(bitmap) => BitmapOnCanvas(bitmap, charX)
  }

  /** A bitmap placed at logical column `charX` on the joint canvas. */
  function BitmapOnCanvas(bitmap: Bitmap, charX: int): Frame {
    set row, col | 0 <= row < 7 && 0 <= col < 5 && BitSet(bitmap[row], col)
                   && 0 <= charX + col < TOTAL_WIDTH
      :: CanvasPixel(charX + col, TEXT_Y + row)
  }

  /**
    The reference rendering read pixel by pixel: a left-panel pixel shows
    the bitmap placed at `charX`, a right-panel pixel the bitmap placed 13
    columns further left.
   */
  lemma BitmapOnCanvasPixel(bitmap: Bitmap, charX: int, q: Pixel)
    ensures q in BitmapOnCanvas(bitmap, charX)
            <==> OnPanel(q.x, q.y)
                 && LitAt(bitmap, if q.panel == Matrix1 then charX else charX - 13, TEXT_Y, q.x, q.y)
  {
    var x := if q.panel == Matrix1 then charX else charX - 13;
    var f := BitmapOnCanvas(bitmap, charX);
    assert q in f ==> OnPanel(q.x, q.y) && LitAt(bitmap, x, TEXT_Y, q.x, q.y) by {
      if q in f {
        var row, col :| 0 <= row < 7 && 0 <= col < 5 && BitSet(bitmap[row], col)
                        && 0 <= charX + col < TOTAL_WIDTH && q == CanvasPixel(charX + col, TEXT_Y + row);
        assert 12 - q.x - x == col && 8 - q.y - TEXT_Y == row;
      }
    }
    assert OnPanel(q.x, q.y) && LitAt(bitmap, x, TEXT_Y, q.x, q.y) ==> q in f by {
      if OnPanel(q.x, q.y) && LitAt(bitmap, x, TEXT_Y, q.x, q.y) {
        var col, row := 12 - q.x - x, 8 - q.y - TEXT_Y;
        assert CanvasPixel(charX + col, TEXT_Y + row) == q;
      }
    }
  }

  /** The reference rendering of a character, read pixel by pixel. */
  lemma GlyphOnCanvasPixel(c: char, charX: int, q: Pixel)
    ensures q in GlyphOnCanvas(c, charX)
            <==> Glyph(c).Found? && OnPanel(q.x, q.y)
                 && LitAt(Glyph(c).bitmap, if q.panel == Matrix1 then charX else charX - 13, TEXT_Y, q.x, q.y)
  {
    if Glyph(c).Found? {
      BitmapOnCanvasPixel(Glyph(c).bitmap, charX, q);
    }
  }

  /**
    The scrolled glyph against the reference: it is exactly the reference
    rendering, except that a character starting in [8, 13) keeps only its
    left-panel part.
   */
  lemma GlyphPlacement(c: char, charX: int)
    ensures GlyphFrame(c, charX)
            == if 8 <= charX < 13 then OnPanelOnly(GlyphOnCanvas(c, charX), Matrix1)
               else GlyphOnCanvas(c, charX)
  {
    var expected := if 8 <= charX < 13 then OnPanelOnly(GlyphOnCanvas(c, charX), Matrix1)
                    else GlyphOnCanvas(c, charX);
    forall q ensures q in GlyphFrame(c, charX) <==> q in expected {
      GlyphOnCanvasPixel(c, charX, q);
      match Placement(charX)
      case DrawnOn(panel, x) =>
        if Glyph(c).Found? {
          DrawBitmapPixel(panel, Glyph(c).bitmap, x, TEXT_Y, q);
        }
      case Skipped =>
    }
  }

  /** The reference rendering of a whole text at an offset. */
  predicate OnCanvas(text: string, offset: int, q: Pixel) {
    exists k :: 0 <= k < |text| && q in GlyphOnCanvas(text[k], CharX(offset, k))
  }

  /** At an offset of 1 modulo 6 every character starts at 1 modulo 6, never in [8, 13). */
  lemma NoSeamStart(offset: int, k: int)
    requires offset % CHAR_WIDTH == 1
    ensures !(8 <= CharX(offset, k) < 13)
  {
    assert CharX(offset, k) % CHAR_WIDTH == 1;
  }

  /**
    At one offset in six no character starts in [8, 13), and the scrolling
    frame is exactly the reference rendering of the whole text.
   */
  lemma ScrollExactWhenNoSeamGlyph(text: string, offset: int, q: Pixel)
    requires offset % CHAR_WIDTH == 1
    ensures q in ScrollFrame(text, offset) <==> OnCanvas(text, offset, q)
  {
    ScrollFromPixel(text, offset, 0, q);
    forall k | 0 <= k < |text|
      ensures GlyphFrame(text[k], CharX(offset, k)) == GlyphOnCanvas(text[k], CharX(offset, k))
    {
      NoSeamStart(offset, k);
      GlyphPlacement(text[k], CharX(offset, k));
    }
  }

  /**
    The clipping at the seam loses pixels: "W" at offset 17 starts at
    column 9, and the right-hand column of its top row, logical column 13,
    is in the reference rendering but not on the panels.
   */
  lemma SeamClipsGlyph()
    ensures Pixel(Matrix2, 12, 7) in GlyphOnCanvas('W', CharX(17, 0))
    ensures Pixel(Matrix2, 12, 7) !in ScrollFrame("W", 17)
  {
    GlyphOnCanvasPixel('W', 9, Pixel(Matrix2, 12, 7));
    ScrollFromPixel("W", 17, 0, Pixel(Matrix2, 12, 7));
  }

  /**
    Every character starting in columns 8 to 12 loses its whole right-panel
    part: whatever it is, it lights nothing on the right panel.
    `SeamClipsGlyph` shows that such a part can be non-empty.
   */
  lemma SeamClipsAny(c: char, charX: int, q: Pixel)
    requires 8 <= charX < 13 && q.panel == Matrix2
    ensures q !in GlyphFrame(c, charX)
  {
    GlyphPlacement(c, charX);
  }

  // ----- The offset counter -----

  /** The largest offset before the text has fully left the canvas. */
  function ScrollBound(text: string): int {
    |text| * CHAR_WIDTH + TOTAL_WIDTH
  }

  /**
    One scroll step: the offset moves on by one and resets to 0 once it
    exceeds the bound. From inside [0, bound] it stays there, and it resets
    exactly on the step taken from the bound itself.
   */
  function ScrollStep(text: string, offset: int): (r: int)
    ensures 0 <= offset <= ScrollBound(text) ==> 0 <= r <= ScrollBound(text)
    ensures 0 <= offset <= ScrollBound(text) ==> (r == 0 <==> offset == ScrollBound(text))
    ensures 0 <= offset < ScrollBound(text) ==> r == offset + 1
  {
    var next := offset + 1;
    if next > |text| * CHAR_WIDTH + TOTAL_WIDTH then 0 else next
  }

  /** The offset after `n` scroll steps from 0. */
  function ScrollSteps(text: string, n: nat): int
    decreases n
  {
    if n == 0 then 0 else ScrollStep(text, ScrollSteps(text, n - 1))
  }

  /** For the first `bound` steps the offset just counts the steps. */
  lemma {:induction false} ScrollCounts(text: string, n: nat)
    requires n <= ScrollBound(text)
    ensures ScrollSteps(text, n) == n
    decreases n
  {
    if n > 0 {
      ScrollCounts(text, n - 1);
    }
  }

  /**
    The offset cycles with period `bound + 1`: after `bound + 1` more steps
    it is back where it was.
   */
  lemma {:induction false} ScrollCycles(text: string, n: nat)
    ensures ScrollSteps(text, n + ScrollBound(text) + 1) == ScrollSteps(text, n)
    decreases n
  {
    if n == 0 {
      ScrollCounts(text, ScrollBound(text));
    } else {
      ScrollCycles(text, n - 1);
    }
  }

  /** No step before the full period brings the offset back to 0. */
  lemma ScrollNoEarlyReset(text: string, n: nat)
    requires 0 < n <= ScrollBound(text)
    ensures ScrollSteps(text, n) != 0
  {
    ScrollCounts(text, n);
  }

  /** "WAKE UP " scrolls through 75 offsets, 0 to 74, and then starts over. */
  lemma {:induction false} WakeUpPeriod(n: nat)
    ensures ScrollSteps(WAKE_UP_TEXT, n) == n % 75
    ensures ScrollSteps(WAKE_UP_TEXT, n) == 0 <==> n % 75 == 0
    decreases n
  {
    assert ScrollBound(WAKE_UP_TEXT) == 74;
    if n < 75 {
      ScrollCounts(WAKE_UP_TEXT, n);
    } else {
      var m := n - 75;
      WakeUpPeriod(m);
      ScrollCycles(WAKE_UP_TEXT, m);
      assert m + ScrollBound(WAKE_UP_TEXT) + 1 == n;
      assert n % 75 == m % 75;
    }
  }
}
