/** The rain-column store: `initMatrix` and the per-frame column update of `draw`. */
module Rain {
  import opened Types
  import opened Arith
  import opened Hex

  /** The glyph alphabet `MATRIX_CHARS`. */
  const GLYPHS: string := "ABCDEFGHIJKLMNOPQRSTUVWXYZ0123456789$+-*/=%\"'#&_(),.;:?!\\|{}<>[]"
  /** Width in pixels of one column slot. */
  const SLOT: nat := 20
  /** Number of glyphs a column carries. */
  const TRAIL: nat := 15
  /** How far below the viewport a column falls before it starts over. */
  const WRAP_MARGIN: real := 300.0
  const RESPAWN_Y: real := -100.0

  /** A falling column of glyphs; `chars[0]` is the leading glyph. */
  datatype Column = Column(x: int, y: real, speed: real, chars: seq<char>)

  /** `MATRIX_CHARS[Math.floor(Math.random() * MATRIX_CHARS.length)]`. */
  function Glyph(d: Draw): (g: char)
    ensures g in GLYPHS
  {
    var n := |GLYPHS| as real;
    MulLe(0.0, d, n);
    MulLt(d, 1.0, n);
    GLYPHS[(d * n).Floor]
  }

  /** `Math.max(1, Math.floor(width / 20))`. */
  function ColumnCount(width: nat): (n: nat)
    ensures 1 <= n
    ensures SLOT <= width ==> n == width / SLOT
    ensures width < SLOT ==> n == 1
  {
    if width / SLOT >= 1 then width / SLOT else 1
  }

  /** The `Math.random()` values one new column reads: its height, its speed, and one per glyph. */
  datatype ColumnDraws = ColumnDraws(y: Draw, speed: Draw, glyphs: seq<Draw>)

  /** A column in slot `i` of a well-formed store. */
  predicate ColumnOk(c: Column, i: nat) {
    c.x == i * SLOT && |c.chars| == TRAIL &&
    (forall k :: 0 <= k < |c.chars| ==> c.chars[k] in GLYPHS) &&
    1.0 <= c.speed < 5.0
  }

  /** Every column sits in its own slot, carries 15 glyphs and falls at a speed in [1, 5). */
  predicate RainValid(cols: seq<Column>) {
    forall i :: 0 <= i < |cols| ==> ColumnOk(cols[i], i)
  }

  /** Column `i` of a fresh store: in its slot, above the viewport, at a speed in [1, 4). */
  function NewColumn(i: nat, d: ColumnDraws): (c: Column)
    requires |d.glyphs| == TRAIL
    ensures ColumnOk(c, i) && -1000.0 < c.y <= 0.0 && c.speed < 4.0
  {
    Column(i * SLOT, d.y * -1000.0, d.speed * 3.0 + 1.0,
           seq(TRAIL, k requires 0 <= k < TRAIL => Glyph(d.glyphs[k])))
  }

  /**
   * `initMatrix(width)`: at least one column, column `i` in the slot at
   * `x = 20 * i`, starting above the viewport at a speed in [1, 4).
   */
  function InitMatrix(width: nat, draws: seq<ColumnDraws>): (cols: seq<Column>)
    requires |draws| == ColumnCount(width)
    requires forall i :: 0 <= i < |draws| ==> |draws[i].glyphs| == TRAIL
    ensures |cols| == ColumnCount(width)
    ensures RainValid(cols)
    ensures forall i :: 0 <= i < |cols| ==> -1000.0 < cols[i].y <= 0.0 && cols[i].speed < 4.0
  {
    seq(|draws|, i requires 0 <= i < |draws| => NewColumn(i, draws[i]))
  }

  /**
   * The slots tile `[0, 20 * count)` without gaps or overlaps: every pixel
   * column in that range lies in the slot of exactly one column.
   */
  lemma SlotsTile(cols: seq<Column>, px: nat)
    requires RainValid(cols) && px < SLOT * |cols|
    ensures px / SLOT < |cols|
    ensures cols[px / SLOT].x <= px < cols[px / SLOT].x + SLOT as int
    ensures forall i :: 0 <= i < |cols| && cols[i].x <= px < cols[i].x + SLOT as int ==> i == px / SLOT
  {
    assert px / SLOT < |cols|;
    forall i | 0 <= i < |cols| && cols[i].x <= px < cols[i].x + SLOT as int
      ensures i == px / SLOT
    {
      DivModUnique(px, SLOT, i, px - i * SLOT);
    }
  }

  /** `unshift(g)` followed by `pop()`. */
  function Recycle(chars: seq<char>, g: char): (r: seq<char>)
    ensures |r| == |chars|
    ensures 0 < |chars| ==> r[0] == g
    ensures forall k :: 0 <= k < |chars| - 1 ==> r[k + 1] == chars[k]
  {
    ([g] + chars)[..|chars|]
  }

  /** The `Math.random()` values one column's update may read. */
  datatype TickDraws = TickDraws(respawn: Draw, recycle: Draw, glyph: Draw)

  /** The update of one column in one frame: fall, wrap, recycle a glyph. */
  function TickColumn(c: Column, height: nat, d: TickDraws): (r: Column)
    ensures r.x == c.x && |r.chars| == |c.chars|
    ensures r.y <= height as real + WRAP_MARGIN
    ensures c.y + c.speed <= height as real + WRAP_MARGIN ==> r.y == c.y + c.speed && r.speed == c.speed
    ensures c.y + c.speed > height as real + WRAP_MARGIN ==> r.y == RESPAWN_Y && 2.0 <= r.speed < 5.0
    ensures d.recycle > 0.95 ==> r.chars == Recycle(c.chars, Glyph(d.glyph))
    ensures d.recycle <= 0.95 ==> r.chars == c.chars
  {
    var y := c.y + c.speed;
    var moved := if y > height as real + WRAP_MARGIN
      then c.(y := RESPAWN_Y, speed := d.respawn * 3.0 + 2.0)
      else c.(y := y);
    if d.recycle > 0.95 then moved.(chars := Recycle(moved.chars, Glyph(d.glyph))) else moved
  }

  /** A frame keeps every column in its slot, with 15 glyphs of the alphabet and a speed in [1, 5). */
  lemma TickKeepsColumn(c: Column, i: nat, height: nat, d: TickDraws)
    requires ColumnOk(c, i)
    ensures ColumnOk(TickColumn(c, height, d), i)
  {
    var r := TickColumn(c, height, d);
    if r.chars != c.chars {
      var g := Glyph(d.glyph);
      forall k | 0 <= k < |r.chars|
        ensures r.chars[k] in GLYPHS
      {
        if k > 0 {
          assert r.chars[k] == c.chars[k - 1];
        }
      }
    }
  }

  /** The update applied to every column. */
  function TickAll(cols: seq<Column>, height: nat, draws: seq<TickDraws>): (r: seq<Column>)
    requires |draws| == |cols|
    ensures |r| == |cols|
    ensures forall i :: 0 <= i < |r| ==> r[i].x == cols[i].x && |r[i].chars| == |cols[i].chars|
  {
    seq(|cols|, i requires 0 <= i < |cols| => TickColumn(cols[i], height, draws[i]))
  }

  /** A frame keeps the whole store well formed. */
  lemma TickAllKeepsStore(cols: seq<Column>, height: nat, draws: seq<TickDraws>)
    requires |draws| == |cols| && RainValid(cols)
    ensures RainValid(TickAll(cols, height, draws))
  {
    forall i | 0 <= i < |cols|
      ensures ColumnOk(TickAll(cols, height, draws)[i], i)
    {
      TickKeepsColumn(cols[i], i, height, draws[i]);
    }
  }

  /** `Math.max(0, 1 - i / length) * 0.15`: the opacity of glyph `i` of a column. */
  function GlyphAlpha(i: nat, len: nat): (a: real)
    requires i < len
    ensures 0.0 < a <= 0.15
  {
    DivMono(0.0, i as real, len as real);
    Max(0.0, 1.0 - i as real / len as real) * 0.15
  }

  /**
   * Glyph opacities lie in (0, 0.15], fade toward the tail, and their alpha
   * bytes lie in [0, 38].
   */
  lemma GlyphAlphaFades(i: nat, j: nat, len: nat)
    requires i <= j < len
    ensures 0.0 < GlyphAlpha(j, len) <= GlyphAlpha(i, len) <= 0.15
    ensures 0 <= AlphaByte(GlyphAlpha(i, len)) <= 38
  {
    DivMono(i as real, j as real, len as real);
    DivMono(0.0, i as real, len as real);
  }
}
