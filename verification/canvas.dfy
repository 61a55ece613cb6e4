/** An abstract model of the parts of the HTML canvas 2D rendering context that the
    drawing pages call. Pixels are not modelled: every call either changes the
    context's drawing state (current default path, styles, bitmap size) or records
    one `Mark`, an opaque description of what was painted on the bitmap. */
module Canvas {

  /** A CSS colour string, taken as given (no parsing, no validation). */
  type Color = string

  datatype Point = Point(x: real, y: real)

  datatype LineCap = ButtCap | RoundCap | SquareCap

  datatype LineJoin = MiterJoin | RoundJoin | BevelJoin

  /** The drawing state of a context together with the size of its bitmap.
      `subpaths` is the current default path: a list of subpaths, each a list of
      points joined by straight lines. */
  datatype Context = Context(
    width: nat,
    height: nat,
    subpaths: seq<seq<Point>>,
    strokeStyle: Color,
    fillStyle: Color,
    lineWidth: real,
    lineCap: LineCap,
    lineJoin: LineJoin)

  /** Size of a canvas element whose width and height were never assigned. */
  const DefaultWidth: nat := 300
  const DefaultHeight: nat := 150

  /** Initial values of the drawing state of a fresh context. */
  const DefaultStyle: Color := "#000000"
  const DefaultLineWidth: real := 1.0

  /** The context in its default state over a bitmap of the given size: an empty
      path, black stroke and fill, width 1, butt caps and miter joins. Assigning
      `canvas.width` or `canvas.height` puts the context back into this state. */
  function Fresh(width: nat, height: nat): Context {
    Context(width, height, [], DefaultStyle, DefaultStyle, DefaultLineWidth, ButtCap, MiterJoin)
  }

  /** The context methods and attribute assignments the pages issue. */
  datatype Call =
    | SetWidth(newWidth: nat)
    | SetHeight(newHeight: nat)
    | BeginPath
    | MoveTo(p: Point)
    | LineTo(p: Point)
    | Stroke
    | SetStrokeStyle(color: Color)
    | SetFillStyle(color: Color)
    | SetLineWidth(lw: real)
    | SetLineCap(cap: LineCap)
    | SetLineJoin(join: LineJoin)
    | FillRect(x: real, y: real, w: real, h: real)
    | DrawImage(src: string, x: real, y: real)

  /** What a call paints on the bitmap. */
  datatype Mark =
    | Cleared(width: nat, height: nat)
    | Filled(color: Color, x: real, y: real, w: real, h: real)
    | Stroked(path: seq<seq<Point>>, color: Color, lineWidth: real, cap: LineCap, join: LineJoin)
    | Composited(src: string, x: real, y: real)

  /** A context after some calls, with the marks they painted, oldest first. */
  datatype Painting = Painting(ctx: Context, marks: seq<Mark>)

  /** True when a fill mark paints every pixel of a width-by-height bitmap. */
  predicate CoversSurface(m: Mark, width: nat, height: nat) {
    m.Filled? && m.x <= 0.0 && m.y <= 0.0 && m.x + m.w >= width as real && m.y + m.h >= height as real
  }

  /** `lineTo(p)`: appends `p` to the last subpath, or starts a subpath at `p`
      when the path is empty. */
  function Extended(subpaths: seq<seq<Point>>, p: Point): seq<seq<Point>>
  {
    if subpaths == [] then [[p]]
    else subpaths[..|subpaths| - 1] + [subpaths[|subpaths| - 1] + [p]]
  }

  /** The effect of one call. Setting `lineWidth` to a value that is not positive
      is ignored, as the canvas standard requires. */
  function Apply(ctx: Context, call: Call): Painting {
    match call
    case SetWidth(w) => Painting(Fresh(w, ctx.height), [Cleared(w, ctx.height)])
    case SetHeight(h) => Painting(Fresh(ctx.width, h), [Cleared(ctx.width, h)])
    case BeginPath => Painting(ctx.(subpaths := []), [])
    case MoveTo(p) => Painting(ctx.(subpaths := ctx.subpaths + [[p]]), [])
    case LineTo(p) => Painting(ctx.(subpaths := Extended(ctx.subpaths, p)), [])
    case Stroke =>
      Painting(ctx, [Stroked(ctx.subpaths, ctx.strokeStyle, ctx.lineWidth, ctx.lineCap, ctx.lineJoin)])
    case SetStrokeStyle(c) => Painting(ctx.(strokeStyle := c), [])
    case SetFillStyle(c) => Painting(ctx.(fillStyle := c), [])
    case SetLineWidth(lw) => Painting(if lw > 0.0 then ctx.(lineWidth := lw) else ctx, [])
    case SetLineCap(cap) => Painting(ctx.(lineCap := cap), [])
    case SetLineJoin(join) => Painting(ctx.(lineJoin := join), [])
    case FillRect(x, y, w, h) => Painting(ctx, [Filled(ctx.fillStyle, x, y, w, h)])
    case DrawImage(src, x, y) => Painting(ctx, [Composited(src, x, y)])
  }

  /** On a path of one subpath, `lineTo` lengthens that subpath by one point. */
  lemma ExtendedSingle(path: seq<Point>, p: Point)
    ensures Extended([path], p) == [path + [p]]
  {
    assert [path][..0] == [];
  }
}
