/** The 1080x1080 RGB image and its drawing handle, reduced to the calls made
    on them: each `line`, `rectangle`, `ellipse`, `text` and `paste` is
    recorded, in order, with the coordinates, colours and fonts passed to it.
    The pixels those calls produce are not modelled. */
module Drawing {
  import opened Wrappers

  /** Side of the square canvas. */
  const CanvasSize := 1080

  datatype Rgb = Rgb(r: int, g: int, b: int)

  /** `'white'` and `'#FFFFFF'`. */
  const White := Rgb(255, 255, 255)
  /** `'#FF69B4'`, the bar fill. */
  const HotPink := Rgb(255, 105, 180)
  /** `'#B080C8'`, the watermark. */
  const Lilac := Rgb(176, 128, 200)

  /** A font as loaded: a TrueType file at a point size, or the built-in default. */
  datatype Font = Truetype(file: string, size: int) | DefaultFont

  /** Text anchors used: `'la'` (the default), `'mm'` and `'lm'`. */
  datatype Anchor = LeftAscender | MiddleMiddle | LeftMiddle

  /** A rectangle `[x0, y0, x1, y1]` with both corners included. */
  datatype Box = Box(x0: int, y0: int, x1: int, y1: int)

  datatype Op =
    | Line(x0: int, y0: int, x1: int, y1: int, colour: Rgb)
    | Rectangle(box: Box, outline: Option<Rgb>, fill: Option<Rgb>, width: int)
    | Ellipse(bounds: Box, stroke: Rgb, strokeWidth: int)
    | Text(x: int, y: int, text: string, font: Font, ink: Rgb, anchor: Anchor)
    | Paste(asset: string, left: int, top: int, pasteWidth: int, pasteHeight: int)

  /** `inner` lies within `outer`. */
  predicate Inside(inner: Box, outer: Box) {
    outer.x0 <= inner.x0 <= inner.x1 <= outer.x1 && outer.y0 <= inner.y0 <= inner.y1 <= outer.y1
  }

  /** Every pixel of `b` is on the canvas. */
  predicate OnCanvas(b: Box) {
    Inside(b, Box(0, 0, CanvasSize - 1, CanvasSize - 1))
  }

  /** The image being drawn, as the sequence of drawing calls made on it. */
  class Canvas {
    var ops: seq<Op>

    constructor ()
      ensures ops == []
    {
      ops := [];
    }

    method Draw(op: Op)
      modifies this
      ensures ops == old(ops) + [op]
    {
      ops := ops + [op];
    }
  }
}
