/**
  The 5x7 glyph table and the eye patterns. Each bitmap has seven rows;
  the five low bits of a row are its columns, the most significant of the
  five (bit 4) being the leftmost column.
 */
module Font {

  /** Seven rows of five columns each: no row uses a bit above bit 4. */
  type Bitmap = b: seq<bv8> | |b| == 7 && forall i :: 0 <= i < 7 ==> b[i] < 32
    witness [0, 0, 0, 0, 0, 0, 0]

  /** Is column `col` (0 = leftmost) of a row lit: `row & (1 << (4 - col))`. */
  predicate BitSet(row: bv8, col: int)
    requires 0 <= col < 5
  {
    row & (1 << (4 - col)) != 0
  }

  /** `FONT_5X7`: digits, space and the upper-case letters of "WAKE UP", "ON" and "OFF". */
  const FONT: map<char, Bitmap> := map[
    '0' := [0x0E, 0x11, 0x13, 0x15, 0x19, 0x11, 0x0E],
    '1' := [0x04, 0x0C, 0x04, 0x04, 0x04, 0x04, 0x0E],
    '2' := [0x0E, 0x11, 0x01, 0x02, 0x04, 0x08, 0x1F],
    '3' := [0x1F, 0x02, 0x04, 0x02, 0x01, 0x11, 0x0E],
    '4' := [0x02, 0x06, 0x0A, 0x12, 0x1F, 0x02, 0x02],
    '5' := [0x1F, 0x10, 0x1E, 0x01, 0x01, 0x11, 0x0E],
    '6' := [0x06, 0x08, 0x10, 0x1E, 0x11, 0x11, 0x0E],
    '7' := [0x1F, 0x01, 0x02, 0x04, 0x08, 0x08, 0x08],
    '8' := [0x0E, 0x11, 0x11, 0x0E, 0x11, 0x11, 0x0E],
    '9' := [0x0E, 0x11, 0x11, 0x0F, 0x01, 0x02, 0x0C],
    ' ' := [0x00, 0x00, 0x00, 0x00, 0x00, 0x00, 0x00],
    'W' := [0x11, 0x11, 0x11, 0x15, 0x15, 0x1B, 0x11],
    'A' := [0x0E, 0x11, 0x11, 0x1F, 0x11, 0x11, 0x11],
    'K' := [0x11, 0x12, 0x14, 0x18, 0x14, 0x12, 0x11],
    'E' := [0x1F, 0x10, 0x10, 0x1E, 0x10, 0x10, 0x1F],
    'U' := [0x11, 0x11, 0x11, 0x11, 0x11, 0x11, 0x0E],
    'P' := [0x1E, 0x11, 0x11, 0x1E, 0x10, 0x10, 0x10],
    'O' := [0x0E, 0x11, 0x11, 0x11, 0x11, 0x11, 0x0E],
    'N' := [0x11, 0x19, 0x15, 0x15, 0x13, 0x11, 0x11],
    'F' := [0x1F, 0x10, 0x10, 0x1E, 0x10, 0x10, 0x10]
  ]

  /** `EYE_OPEN`: lashes, outline and pupil; the last row is empty. */
  const EYE_OPEN: Bitmap := [0x15, 0x0E, 0x11, 0x15, 0x11, 0x0E, 0x00]

  /** `EYE_CLOSED`: a single lid line across the middle row. */
  const EYE_CLOSED: Bitmap := [0x00, 0x00, 0x00, 0x1F, 0x00, 0x00, 0x00]

  /** `char.upper()` on ASCII letters; every other character is left as is. */
  function Upper(c: char): (u: char)
    ensures 'a' <= c <= 'z' ==> 'A' <= u <= 'Z' && u as int - 'A' as int == c as int - 'a' as int
    ensures !('a' <= c <= 'z') ==> u == c
  {
    if 'a' <= c <= 'z' then (c as int - 32) as char else c
  }

  /** The characters the table answers for, in either case. */
  const DRAWABLE: set<char> := {
    '0', '1', '2', '3', '4', '5', '6', '7', '8', '9', ' ',
    'W', 'A', 'K', 'E', 'U', 'P', 'O', 'N', 'F',
    'w', 'a', 'k', 'e', 'u', 'p', 'o', 'n', 'f'
  }

  /** The outcome of a font lookup. */
  datatype Lookup = Found(bitmap: Bitmap) | Missing

  /**
    The glyph `draw_char` looks up for `c`, or `Missing` for a character it
    silently skips: exactly the drawable characters, in either case, are found.
   */
  function Glyph(c: char): (g: Lookup)
    ensures g.Found? <==> c in DRAWABLE
    ensures g.Found? ==> g.bitmap == FONT[Upper(c)]
  {
    FontKeys(c);
    if Upper(c) in FONT then Found(FONT[Upper(c)]) else Missing
  }

  /** The table's keys, reached through `Upper`, are exactly the drawable characters. */
  lemma FontKeys(c: char)
    ensures Upper(c) in FONT <==> c in DRAWABLE
  {
    if 'a' <= c <= 'z' {
      LowerKeys(c);
    } else {
      OtherKeys(c);
    }
  }

  lemma LowerKeys(c: char)
    requires 'a' <= c <= 'z'
    ensures Upper(c) in FONT <==> c in DRAWABLE
  {
    assert Upper(c) in FONT <==> c in "wakeuponf";
  }

  lemma OtherKeys(c: char)
    requires !('a' <= c <= 'z')
    ensures Upper(c) in FONT <==> c in DRAWABLE
  {
    assert Upper(c) == c;
  }

  /** The lookup ignores case: a letter and its upper-case form draw alike. */
  lemma GlyphIgnoresCase(c: char)
    ensures Glyph(c) == Glyph(Upper(c))
  {
  }
}
