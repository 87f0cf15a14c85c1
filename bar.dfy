/** The progress bar: a 580x90 outline thickened by six nested one-pixel
    rectangles, and inside it a fill whose width is `int(560 * (p / 100))`,
    drawn only when that width is positive. */
module ProgressBar {
  import opened Wrappers
  import opened Drawing
  import opened PyNumbers

  const BarWidth := 580
  const BarHeight := 90
  const BarX := (CanvasSize - BarWidth) / 2
  const BarY := 720
  /** Number of one-pixel outlines drawn around the bar. */
  const BorderCount := 6

  /** The `i`-th outline, grown by `i` pixels on every side. */
  function BorderBox(i: int): Box {
    Box(BarX - i, BarY - i, BarX + BarWidth + i, BarY + BarHeight + i)
  }

  /** `int((bar_width - 20) * (p / 100))`. */
  function FillWidth(p: int): (w: int)
    ensures 0 <= p <= 100 ==> 0 <= w <= BarWidth - 20
    ensures p == 100 ==> w == BarWidth - 20
    ensures 0 <= p <= 100 ==> (w > 0 <==> p >= 1)
  {
    TruncDiv((BarWidth - 20) * p, 100)
  }

  function FillBox(p: int): Box {
    Box(BarX + 10, BarY + 10, BarX + 10 + FillWidth(p), BarY + BarHeight - 10)
  }

  function BorderOps(n: nat): seq<Op> {
    seq(n, i => Rectangle(BorderBox(i), Some(White), None, 1))
  }

  /** The calls the bar code makes for percentage `p`. */
  function BarOps(p: int): seq<Op> {
    BorderOps(BorderCount)
      + (if FillWidth(p) > 0 then [Rectangle(FillBox(p), None, Some(HotPink), 1)] else [])
  }

  /** The fill never gets wider as the percentage drops. */
  lemma FillWidthMonotone(p1: int, p2: int)
    requires 0 <= p1 <= p2 <= 100
    ensures FillWidth(p1) <= FillWidth(p2)
  {
  }

  /** Each outline lies inside the next, and the outermost is on the canvas. */
  lemma BordersNested(i: int, j: int)
    requires 0 <= i <= j < BorderCount
    ensures Inside(BorderBox(i), BorderBox(j))
    ensures OnCanvas(BorderBox(j))
  {
  }

  /** The fill stays at least ten pixels inside the innermost outline. */
  lemma FillInsideBorder(p: int)
    requires 0 <= p <= 100
    ensures Inside(FillBox(p), Box(BarX + 10, BarY + 10, BarX + BarWidth - 10, BarY + BarHeight - 10))
    ensures Inside(FillBox(p), BorderBox(0))
    ensures FillBox(p).x0 == 260 && FillBox(p).y0 == 730 && FillBox(p).y1 == 800
  {
  }

  /** The border loop and the fill: six outlines from the innermost out, then
      the fill when it has a positive width. */
  method DrawBar(canvas: Canvas, p: int)
    modifies canvas
    ensures canvas.ops == old(canvas.ops) + BarOps(p)
  {
    var i := 0;
    while i < BorderCount
      invariant 0 <= i <= BorderCount
      invariant canvas.ops == old(canvas.ops) + BorderOps(i)
    {
      canvas.Draw(Rectangle(BorderBox(i), Some(White), None, 1));
      assert BorderOps(i + 1) == BorderOps(i) + [Rectangle(BorderBox(i), Some(White), None, 1)];
      i := i + 1;
    }
    var fillWidth := FillWidth(p);
    if fillWidth > 0 {
      canvas.Draw(Rectangle(FillBox(p), None, Some(HotPink), 1));
    }
  }
}
