/**
  Static text: `draw_char`, the split colon with its PM dot, and the fixed
  "HH:MM" layout of `draw_text`. All text is drawn with its top row at
  y = 1.

  Layout in drawing coordinates: the first two characters at x = 0 and
  x = 6 on the left panel, the colon on the last column of the left panel
  and the first column of the right one, and the last two characters at
  x = 2 and x = 8 on the right panel. After the flip these become the native
  column bands used below.
 */
module Text {
  import opened Font
  import opened Canvas

  const TEXT_Y: int := 1

  /** `draw_char`: the character's glyph, or nothing when the font lacks it. */
  function DrawChar(panel: Panel, c: char, x: int, y: int): (f: Frame)
    ensures InBounds(f)
    ensures forall p :: p in f ==> p.panel == panel
    ensures c !in DRAWABLE ==> f == {}
  {
    match Glyph(c)
    case Found(bitmap) => DrawBitmap(panel, bitmap, x, y)
    case Missing => {}
  }

  /** A space is in the font but lights nothing. */
  lemma SpaceIsBlank(panel: Panel, x: int, y: int)
    ensures DrawChar(panel, ' ', x, y) == {}
  {
  }

  /** Every pixel of a glyph drawn at (x, y) lies in the native columns 8 - x .. 12 - x. */
  lemma DrawCharColumns(panel: Panel, c: char, x: int, y: int, q: Pixel)
    requires q in DrawChar(panel, c, x, y)
    ensures 8 - x <= q.x <= 12 - x
    ensures 2 - y <= q.y <= 8 - y
  {
    DrawBitmapPixel(panel, Glyph(c).bitmap, x, y, q);
  }

  /** The same position on the other panel, mirrored across the seam. */
  function Mirror(p: Pixel): Pixel {
    Pixel(if p.panel == Matrix1 then Matrix2 else Matrix1, 12 - p.x, p.y)
  }

  /**
    `draw_colon_split`: two 2-pixel dots, each split across the seam, and
    with `isPm` a third 1-pixel-high dot below them.
   */
  function Colon(y: int, isPm: bool): (f: Frame)
    ensures InBounds(f)
    ensures forall p :: p in f ==> p.x == SeamColumn(p.panel)
  {
    ColonRowPixels(y, 1) + ColonRowPixels(y, 2) + ColonRowPixels(y, 4) + ColonRowPixels(y, 5)
    + (if isPm then ColonRowPixels(y, 6) else {})
  }

  /** One row `y + d` of the colon: its left half on `matrix1`, its right half on `matrix2`. */
  function ColonRowPixels(y: int, d: int): (f: Frame)
    ensures InBounds(f)
  {
    FlippedPixel(Matrix1, 12, y + d) + FlippedPixel(Matrix2, 0, y + d)
  }

  /** The native column of the seam on each panel: the colon's only column there. */
  function SeamColumn(panel: Panel): int {
    if panel == Matrix1 then 0 else 12
  }

  /** The colon's rows below `y`: 1, 2, 4 and 5, and 6 for the PM dot. */
  predicate ColonRow(d: int, isPm: bool) {
    d == 1 || d == 2 || d == 4 || d == 5 || (isPm && d == 6)
  }

  /**
    The colon read pixel by pixel: a pixel is lit exactly when it is on a
    panel's seam column, on the panel's area, and its row (through the flip)
    is one of the colon's rows.
   */
  lemma ColonPixel(y: int, isPm: bool, q: Pixel)
    ensures q in Colon(y, isPm)
            <==> OnPanel(q.x, q.y) && q.x == SeamColumn(q.panel) && ColonRow(8 - q.y - y, isPm)
  {
    ColonRowPixel(y, 1, q);
    ColonRowPixel(y, 2, q);
    ColonRowPixel(y, 4, q);
    ColonRowPixel(y, 5, q);
    ColonRowPixel(y, 6, q);
  }

  lemma ColonRowPixel(y: int, d: int, q: Pixel)
    ensures q in ColonRowPixels(y, d)
            <==> OnPanel(q.x, q.y) && q.x == SeamColumn(q.panel) && 8 - q.y - y == d
  {
  }

  /** The colon is symmetric across the seam. */
  lemma ColonMirrored(y: int, isPm: bool, q: Pixel)
    requires q in Colon(y, isPm)
    ensures Mirror(q) in Colon(y, isPm)
  {
    ColonPixel(y, isPm, q);
    ColonPixel(y, isPm, Mirror(q));
  }

  /** The PM dot's pixel on the left panel is lit iff `isPm`, whenever the dot fits. */
  lemma ColonPmDot(y: int, isPm: bool)
    requires -1 <= y <= 2
    ensures Pixel(Matrix1, 0, 2 - y) in Colon(y, isPm) <==> isPm
  {
    ColonPixel(y, isPm, Pixel(Matrix1, 0, 2 - y));
  }

  /** A colon row on the panels' area is one pixel either side of the seam. */
  lemma ColonRowCount(y: int, d: int)
    requires 0 <= y + d < PANEL_HEIGHT
    ensures |ColonRowPixels(y, d)| == 2
  {
    assert ColonRowPixels(y, d) == {Pixel(Matrix1, 0, 8 - y - d), Pixel(Matrix2, 12, 8 - y - d)};
  }

  /** Two colon rows at different heights share no pixel. */
  lemma ColonRowsDisjoint(y: int, d: int, e: int, a: Frame)
    requires d != e
    requires forall q :: q in a ==> q.y != 8 - y - e
    ensures |a + ColonRowPixels(y, e)| == |a| + |ColonRowPixels(y, e)|
  {
    forall q | q in ColonRowPixels(y, e) ensures q !in a {
      ColonRowPixel(y, e, q);
    }
    assert a * ColonRowPixels(y, e) == {};
  }

  /** The two dots are 8 distinct pixels. */
  lemma ColonDotsCount(y: int)
    requires -1 <= y <= 2
    ensures |ColonRowPixels(y, 1) + ColonRowPixels(y, 2) + ColonRowPixels(y, 4) + ColonRowPixels(y, 5)| == 8
  {
    var r1, r2, r4, r5 := ColonRowPixels(y, 1), ColonRowPixels(y, 2), ColonRowPixels(y, 4), ColonRowPixels(y, 5);
    assert |r1 + r2| == 4 by {
      ColonRowCount(y, 1);
      ColonRowCount(y, 2);
      forall q | q in r1 ensures 8 - q.y - y == 1 { ColonRowPixel(y, 1, q); }
      ColonRowsDisjoint(y, 1, 2, r1);
    }
    assert |r1 + r2 + r4| == 6 by {
      ColonRowCount(y, 4);
      forall q | q in r1 + r2 ensures 8 - q.y - y < 4 {
        ColonRowPixel(y, 1, q);
        ColonRowPixel(y, 2, q);
      }
      ColonRowsDisjoint(y, 2, 4, r1 + r2);
    }
    assert |r1 + r2 + r4 + r5| == 8 by {
      ColonRowCount(y, 5);
      forall q | q in r1 + r2 + r4 ensures 8 - q.y - y < 5 {
        ColonRowPixel(y, 1, q);
        ColonRowPixel(y, 2, q);
        ColonRowPixel(y, 4, q);
      }
      ColonRowsDisjoint(y, 4, 5, r1 + r2 + r4);
    }
  }

  /** When the colon fits vertically it is 8 pixels, or 10 with the PM dot. */
  lemma ColonCount(y: int, isPm: bool)
    requires -1 <= y <= 2
    ensures |Colon(y, isPm)| == if isPm then 10 else 8
  {
    var dots := ColonRowPixels(y, 1) + ColonRowPixels(y, 2) + ColonRowPixels(y, 4) + ColonRowPixels(y, 5);
    ColonDotsCount(y);
    if isPm {
      ColonRowCount(y, 6);
      forall q | q in dots ensures 8 - q.y - y < 6 {
        ColonRowPixel(y, 1, q);
        ColonRowPixel(y, 2, q);
        ColonRowPixel(y, 4, q);
        ColonRowPixel(y, 5, q);
      }
      ColonRowsDisjoint(y, 5, 6, dots);
    }
  }

  /**
    `draw_text`: the two leading characters on the left panel when the text
    has at least two, the colon when the third character is ':', and the
    characters at indices 3 and 4 on the right panel when it has five.
   */
  function TextFrame(text: string, isPm: bool): (f: Frame)
    ensures InBounds(f)
    ensures |text| < 2 ==> f == {}
  {
    LeadingPair(text) + ColonPart(text, isPm) + TrailingPair(text)
  }

  /** The characters at indices 0 and 1, on the left panel. */
  function LeadingPair(text: string): (f: Frame)
    ensures InBounds(f)
    ensures forall p :: p in f ==> p.panel == Matrix1
  {
    if |text| >= 2 then DrawChar(Matrix1, text[0], 0, TEXT_Y) + DrawChar(Matrix1, text[1], 6, TEXT_Y) else {}
  }

  /** The colon, drawn only when the third character is ':'. */
  function ColonPart(text: string, isPm: bool): (f: Frame)
    ensures InBounds(f)
  {
    if |text| >= 3 && text[2] == ':' then Colon(TEXT_Y, isPm) else {}
  }

  /** The characters at indices 3 and 4, on the right panel. */
  function TrailingPair(text: string): (f: Frame)
    ensures InBounds(f)
    ensures forall p :: p in f ==> p.panel == Matrix2
  {
    if |text| >= 5 then DrawChar(Matrix2, text[3], 2, TEXT_Y) + DrawChar(Matrix2, text[4], 8, TEXT_Y) else {}
  }

  /** The leading characters never reach the seam column of the left panel. */
  lemma LeadingPairAwayFromSeam(text: string, q: Pixel)
    requires q in LeadingPair(text)
    ensures 2 <= q.x
  {
    if q in DrawChar(Matrix1, text[0], 0, TEXT_Y) {
      DrawCharColumns(Matrix1, text[0], 0, TEXT_Y, q);
    } else {
      DrawCharColumns(Matrix1, text[1], 6, TEXT_Y, q);
    }
  }

  /** The trailing characters never reach the seam column of the right panel. */
  lemma TrailingPairAwayFromSeam(text: string, q: Pixel)
    requires q in TrailingPair(text)
    ensures q.x <= 10
  {
    if q in DrawChar(Matrix2, text[3], 2, TEXT_Y) {
      DrawCharColumns(Matrix2, text[3], 2, TEXT_Y, q);
    } else {
      DrawCharColumns(Matrix2, text[4], 8, TEXT_Y, q);
    }
  }

  /** The PM dot of the static display: its pixel is lit iff there is a colon and `isPm` holds. */
  lemma PmDotShown(text: string, isPm: bool)
    ensures Pixel(Matrix1, 0, 1) in TextFrame(text, isPm)
            <==> |text| >= 3 && text[2] == ':' && isPm
  {
    var q := Pixel(Matrix1, 0, 1);
    assert q !in LeadingPair(text) by {
      if q in LeadingPair(text) {
        LeadingPairAwayFromSeam(text, q);
      }
    }
    assert q in ColonPart(text, isPm) <==> |text| >= 3 && text[2] == ':' && isPm by {
      ColonPmDot(TEXT_Y, isPm);
    }
  }

  /**
    The hour-setting display "HH:  " leaves the minute field dark: on the
    right panel only the colon's seam column is lit.
   */
  lemma MinutesBlank(text: string, isPm: bool, q: Pixel)
    requires |text| == 5 && text[3] == ' ' && text[4] == ' '
    requires q in TextFrame(text, isPm) && q.panel == Matrix2
    ensures q.x == SeamColumn(Matrix2)
  {
    SpaceIsBlank(Matrix2, 2, TEXT_Y);
    SpaceIsBlank(Matrix2, 8, TEXT_Y);
    assert TrailingPair(text) == {};
    ColonPixel(TEXT_Y, isPm, q);
  }

  /**
    The minute-setting display "  :MM" leaves the hour field dark: on the
    left panel only the colon's seam column is lit.
   */
  lemma HoursBlank(text: string, isPm: bool, q: Pixel)
    requires |text| == 5 && text[0] == ' ' && text[1] == ' '
    requires q in TextFrame(text, isPm) && q.panel == Matrix1
    ensures q.x == SeamColumn(Matrix1)
  {
    SpaceIsBlank(Matrix1, 0, TEXT_Y);
    SpaceIsBlank(Matrix1, 6, TEXT_Y);
    assert LeadingPair(text) == {};
    ColonPixel(TEXT_Y, isPm, q);
  }

  /** The characters the clock's static displays are made of. */
  const CLOCK_CHARS: set<char> := set c | c in "0123456789 "

  /** A static display text: "HH:MM", or one of its halves blanked with spaces. */
  predicate IsClockText(text: string) {
    |text| == 5 && text[2] == ':'
    && text[0] in CLOCK_CHARS && text[1] in CLOCK_CHARS
    && text[3] in CLOCK_CHARS && text[4] in CLOCK_CHARS
  }

  /** The pixels of a frame on one panel within the native columns lo..hi. */
  function Band(f: Frame, panel: Panel, lo: int, hi: int): (r: Frame)
    ensures forall p :: p in r <==> p in f && p.panel == panel && lo <= p.x <= hi
  {
    set p | p in f && p.panel == panel && lo <= p.x <= hi
  }

  /** A glyph drawn at (x, y) is all of its own column band. */
  lemma CharBand(panel: Panel, c: char, x: int, y: int)
    ensures Band(DrawChar(panel, c, x, y), panel, 8 - x, 12 - x) == DrawChar(panel, c, x, y)
  {
    forall q | q in DrawChar(panel, c, x, y) ensures 8 - x <= q.x <= 12 - x {
      DrawCharColumns(panel, c, x, y, q);
    }
  }

  /** Each of the four character cells of a static display can be read off its own band. */
  lemma TextCells(text: string, isPm: bool)
    requires |text| == 5
    ensures Band(TextFrame(text, isPm), Matrix1, 8, 12) == DrawChar(Matrix1, text[0], 0, TEXT_Y)
    ensures Band(TextFrame(text, isPm), Matrix1, 2, 6) == DrawChar(Matrix1, text[1], 6, TEXT_Y)
    ensures Band(TextFrame(text, isPm), Matrix2, 6, 10) == DrawChar(Matrix2, text[3], 2, TEXT_Y)
    ensures Band(TextFrame(text, isPm), Matrix2, 0, 4) == DrawChar(Matrix2, text[4], 8, TEXT_Y)
  {
    forall q | q in ColonPart(text, isPm) ensures q.x == SeamColumn(q.panel) {
      ColonPixel(TEXT_Y, isPm, q);
    }
    LeftCells(text, isPm);
    RightCells(text, isPm);
  }

  /** Every pixel of a character cell drawn at `x` on the time row lies in its own column band. */
  lemma CellColumns(panel: Panel, c: char, x: int)
    ensures forall q :: q in DrawChar(panel, c, x, TEXT_Y) ==> 8 - x <= q.x <= 12 - x
  {
    forall q | q in DrawChar(panel, c, x, TEXT_Y) ensures 8 - x <= q.x <= 12 - x {
      DrawCharColumns(panel, c, x, TEXT_Y, q);
    }
  }

  /** The two cells of the left panel, when the colon stays on the seam columns. */
  lemma LeftCells(text: string, isPm: bool)
    requires |text| == 5
    requires forall q :: q in ColonPart(text, isPm) ==> q.x == SeamColumn(q.panel)
    ensures Band(TextFrame(text, isPm), Matrix1, 8, 12) == DrawChar(Matrix1, text[0], 0, TEXT_Y)
    ensures Band(TextFrame(text, isPm), Matrix1, 2, 6) == DrawChar(Matrix1, text[1], 6, TEXT_Y)
  {
    CellColumns(Matrix1, text[0], 0);
    CellColumns(Matrix1, text[1], 6);
  }

  /** The two cells of the right panel, when the colon stays on the seam columns. */
  lemma RightCells(text: string, isPm: bool)
    requires |text| == 5
    requires forall q :: q in ColonPart(text, isPm) ==> q.x == SeamColumn(q.panel)
    ensures Band(TextFrame(text, isPm), Matrix2, 6, 10) == DrawChar(Matrix2, text[3], 2, TEXT_Y)
    ensures Band(TextFrame(text, isPm), Matrix2, 0, 4) == DrawChar(Matrix2, text[4], 8, TEXT_Y)
  {
    CellColumns(Matrix2, text[3], 2);
    CellColumns(Matrix2, text[4], 8);
  }

  /** Two rows agreeing on all five columns are equal, when both fit in five bits. */
  lemma RowFromBits(a: bv8, b: bv8)
    requires a < 32 && b < 32
    requires BitSet(a, 0) == BitSet(b, 0) && BitSet(a, 1) == BitSet(b, 1) && BitSet(a, 2) == BitSet(b, 2)
    requires BitSet(a, 3) == BitSet(b, 3) && BitSet(a, 4) == BitSet(b, 4)
    ensures a == b
  {
  }

  /** The glyphs of the clock's characters are pairwise different. */
  lemma ClockGlyphsDistinct(c: char, d: char)
    requires c in CLOCK_CHARS && d in CLOCK_CHARS && c != d
    ensures FONT[c] != FONT[d]
  {
  }

  /**
    A glyph drawn where it fits entirely on the panel shows every one of
    its bits, so two such drawings agree only if the bitmaps agree.
   */
  lemma BitmapShownWhole(panel: Panel, a: Bitmap, b: Bitmap, x: int, y: int)
    requires 0 <= x <= 8 && 0 <= y <= 2
    requires DrawBitmap(panel, a, x, y) == DrawBitmap(panel, b, x, y)
    ensures a == b
  {
    forall row | 0 <= row < 7 ensures a[row] == b[row] {
      forall col | 0 <= col < 5 ensures BitSet(a[row], col) == BitSet(b[row], col) {
        var q := Flip(panel, x + col, y + row);
        DrawBitmapPixel(panel, a, x, y, q);
        DrawBitmapPixel(panel, b, x, y, q);
      }
      RowFromBits(a[row], b[row]);
    }
  }

  /** A clock character drawn where it fits entirely can be read back from its pixels. */
  lemma ClockCharShown(panel: Panel, c: char, d: char, x: int)
    requires c in CLOCK_CHARS && d in CLOCK_CHARS
    requires 0 <= x <= 8
    requires DrawChar(panel, c, x, TEXT_Y) == DrawChar(panel, d, x, TEXT_Y)
    ensures c == d
  {
    var a, b := FONT[Upper(c)], FONT[Upper(d)];
    assert Upper(c) == c && Upper(d) == d;
    BitmapShownWhole(panel, a, b, x, TEXT_Y);
    if c != d {
      ClockGlyphsDistinct(c, d);
    }
  }

  /** Two clock texts with the same four characters are the same text. */
  lemma SameClockText(t1: string, t2: string)
    requires IsClockText(t1) && IsClockText(t2)
    requires t1[0] == t2[0] && t1[1] == t2[1] && t1[3] == t2[3] && t1[4] == t2[4]
    ensures t1 == t2
  {
    assert forall i :: 0 <= i < 5 ==> t1[i] == t2[i];
  }

  /**
    The static display is unambiguous: the frame of a clock text determines
    the text and the PM flag.
   */
  lemma ClockTextDecodes(t1: string, pm1: bool, t2: string, pm2: bool)
    requires IsClockText(t1) && IsClockText(t2)
    requires TextFrame(t1, pm1) == TextFrame(t2, pm2)
    ensures t1 == t2 && pm1 == pm2
  {
    assert t1[0] == t2[0] && t1[1] == t2[1] && t1[3] == t2[3] && t1[4] == t2[4] by {
      TextCells(t1, pm1);
      TextCells(t2, pm2);
      ClockCharShown(Matrix1, t1[0], t2[0], 0);
      ClockCharShown(Matrix1, t1[1], t2[1], 6);
      ClockCharShown(Matrix2, t1[3], t2[3], 2);
      ClockCharShown(Matrix2, t1[4], t2[4], 8);
    }
    SameClockText(t1, t2);
    assert pm1 == pm2 by {
      PmDotShown(t1, pm1);
      PmDotShown(t2, pm2);
    }
  }
}
