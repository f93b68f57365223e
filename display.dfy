/** The 128x64 monochrome OLED framebuffer the mascots draw into. As in
    MicroPython's `framebuf`, `pixel()` outside the screen does nothing. */
module Display {
  import opened Common

  const Width: int := 128
  const Height: int := 64

  predicate OnScreen(px: int, py: int)
  {
    0 <= px < Width && 0 <= py < Height
  }

  class Framebuffer {
    const pixels: array2<bool>

    ghost predicate Valid()
      reads this
    {
      pixels.Length0 == Width && pixels.Length1 == Height
    }

    /** A blank screen. */
    constructor ()
      ensures Valid() && fresh(pixels)
      ensures forall px, py :: OnScreen(px, py) ==> !pixels[px, py]
    {
      pixels := new bool[Width, Height]((_, _) => false);
    }

    /** `oled.fill(c)`. */
    method Fill(on: bool)
      requires Valid()
      modifies pixels
      ensures forall px, py :: OnScreen(px, py) ==> pixels[px, py] == on
    {
      for px := 0 to Width
        invariant forall qx, qy :: OnScreen(qx, qy) && qx < px ==> pixels[qx, qy] == on
      {
        for py := 0 to Height
          invariant forall qx, qy :: OnScreen(qx, qy) && (qx < px || (qx == px && qy < py)) ==> pixels[qx, qy] == on
        {
          pixels[px, py] := on;
        }
      }
    }

    /** `oled.pixel(x, y, c)`. */
    method Pixel(x: int, y: int, on: bool)
      requires Valid()
      modifies pixels
      ensures forall px, py :: OnScreen(px, py) ==>
        pixels[px, py] == if px == x && py == y then on else old(pixels[px, py])
    {
      if OnScreen(x, y) {
        pixels[x, y] := on;
      }
    }
  }

  /** Whether a bitmap placed at (x, y) lights screen pixel (px, py): the
      bitmap has one integer per row, and column `col` of a row is bit
      `topBit - col` of that integer, for the first `cols` columns. */
  predicate Covers(rows: seq<nat>, cols: nat, topBit: nat, x: int, y: int, px: int, py: int)
  {
    0 <= py - y < |rows| && 0 <= px - x < cols && px - x <= topBit &&
    BitSet(rows[py - y], topBit - (px - x))
  }

  /** The nested row/column loops of the mascots' sprite routines: for every
      set bit, `pixel(x + col, y + row, 1)`, skipped when the position fails
      the routine's own bounds test. Both variants test the right and bottom
      edges; `clipLow` adds the test for the left and top edges. Pixels are
      only ever lit, never cleared. */
  method Blit(fb: Framebuffer, rows: seq<nat>, cols: nat, topBit: nat, x: int, y: int, clipLow: bool)
    requires fb.Valid()
    requires cols <= topBit + 1
    modifies fb.pixels
    ensures forall px, py :: OnScreen(px, py) ==>
      fb.pixels[px, py] == (old(fb.pixels[px, py]) || Covers(rows, cols, topBit, x, y, px, py))
  {
    for row := 0 to |rows|
      invariant forall px, py :: OnScreen(px, py) ==>
        fb.pixels[px, py] ==
          (old(fb.pixels[px, py]) || (Covers(rows, cols, topBit, x, y, px, py) && py - y < row))
    {
      for col := 0 to cols
        invariant forall px, py :: OnScreen(px, py) ==>
          fb.pixels[px, py] ==
            (old(fb.pixels[px, py]) ||
             (Covers(rows, cols, topBit, x, y, px, py) &&
              (py - y < row || (py - y == row && px - x < col))))
      {
        var inBounds := x + col < Width && y + row < Height &&
                        (!clipLow || (0 <= x + col && 0 <= y + row));
        if inBounds && BitSet(rows[row], topBit - col) {
          fb.Pixel(x + col, y + row, true);
        }
      }
    }
  }
}
