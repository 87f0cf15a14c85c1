/** The background: one full-width horizontal line per scanline `y`, coloured
    `int(230 - y*90/1080)`, `int(80 - y*40/1080)`, `int(200 + y*40/1080)`,
    pink at the top fading to purple at the bottom. */
module Gradient {
  import opened Drawing
  import opened PyNumbers

  function ScanlineColour(y: int): Rgb {
    Rgb(TruncDiv(230 * 1080 - 90 * y, 1080),
        TruncDiv(80 * 1080 - 40 * y, 1080),
        TruncDiv(200 * 1080 + 40 * y, 1080))
  }

  function ScanlineOp(y: int): Op {
    Line(0, y, CanvasSize, y, ScanlineColour(y))
  }

  /** The calls the gradient loop makes, one per scanline. */
  function GradientOps(): seq<Op> {
    seq(CanvasSize, y => ScanlineOp(y))
  }

  /** On the canvas the truncations are exact ceilings and floors:
      `y*90/1080 = y/12` and `y*40/1080 = y/27`. */
  lemma ScanlineClosedForm(y: int)
    requires 0 <= y < CanvasSize
    ensures ScanlineColour(y) == Rgb(230 - (y + 11) / 12, 80 - (y + 26) / 27, 200 + y / 27)
  {
    var c := ScanlineColour(y);
    assert c.r == (230 * 1080 - 90 * y) / 1080;
    assert c.g == (80 * 1080 - 40 * y) / 1080;
    assert c.b == (200 * 1080 + 40 * y) / 1080;
  }

  /** Every channel of every scanline stays in its band, inside the 8-bit
      range, and the top line is (230, 80, 200). */
  lemma ScanlineRange(y: int)
    requires 0 <= y < CanvasSize
    ensures var c := ScanlineColour(y);
      140 <= c.r <= 230 && 40 <= c.g <= 80 && 200 <= c.b <= 239
    ensures y == 0 ==> ScanlineColour(y) == Rgb(230, 80, 200)
  {
    ScanlineClosedForm(y);
  }

  /** Going down the canvas red and green never increase and blue never decreases. */
  lemma ScanlineMonotone(y1: int, y2: int)
    requires 0 <= y1 <= y2 < CanvasSize
    ensures ScanlineColour(y2).r <= ScanlineColour(y1).r
    ensures ScanlineColour(y2).g <= ScanlineColour(y1).g
    ensures ScanlineColour(y1).b <= ScanlineColour(y2).b
  {
    ScanlineClosedForm(y1);
    ScanlineClosedForm(y2);
  }

  /** The `for y in range(1080)` loop: one line per scanline, top to bottom. */
  method DrawGradient(canvas: Canvas)
    modifies canvas
    ensures canvas.ops == old(canvas.ops) + GradientOps()
  {
    var y := 0;
    while y < CanvasSize
      invariant 0 <= y <= CanvasSize
      invariant canvas.ops == old(canvas.ops) + seq(y, i => ScanlineOp(i))
    {
      canvas.Draw(ScanlineOp(y));
      assert seq(y + 1, i => ScanlineOp(i)) == seq(y, i => ScanlineOp(i)) + [ScanlineOp(y)];
      y := y + 1;
    }
  }
}
