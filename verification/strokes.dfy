/** The path-accumulating stroke shared by the two path-drawing pages: a press
    starts a new path at the pressed point, and each move adds a line to the
    moved-to point and strokes the whole path again. */
module Strokes {
  import opened Canvas
  import opened Effects

  /** `beginPath(); moveTo(p)`. */
  function Begin(p: Point): seq<Command> {
    [Draw(BeginPath), Draw(MoveTo(p))]
  }

  /** `strokeStyle = color; lineWidth = width; lineTo(p); stroke()`. */
  function Extend(p: Point, color: Color, width: real): seq<Command> {
    [Draw(SetStrokeStyle(color)), Draw(SetLineWidth(width)), Draw(LineTo(p)), Draw(Stroke)]
  }

  /** Beginning discards whatever path there was and leaves a path holding only
      `p`; nothing is painted and the styles are untouched. */
  lemma BeginStartsFreshPath(ctx: Context, p: Point)
    ensures Perform(ctx, Begin(p)) == Painting(ctx.(subpaths := [[p]]), [])
  {
    assert Perform(ctx.(subpaths := []), [Draw(MoveTo(p))]) == Painting(ctx.(subpaths := [[p]]), []);
  }

  /** `lineTo(p); stroke()` adds `p` to the path and paints the whole path in the
      context's current style. */
  lemma LineThenStroke(ctx: Context, p: Point)
    ensures var after := ctx.(subpaths := Extended(ctx.subpaths, p));
            Perform(ctx, [Draw(LineTo(p))] + [Draw(Stroke)])
            == Painting(after, [Stroked(after.subpaths, ctx.strokeStyle, ctx.lineWidth, ctx.lineCap, ctx.lineJoin)])
  {
    var after := ctx.(subpaths := Extended(ctx.subpaths, p));
    PerformDrawFirst(after, Stroke, []);
    assert [Draw(Stroke)] + [] == [Draw(Stroke)];
    PerformQuietFirst(ctx, LineTo(p), [Draw(Stroke)], after);
  }

  /** Extending adds `p` to the current subpath and paints exactly one mark: the
      whole path, in the given colour and width, with the context's caps and
      joins. */
  lemma ExtendStrokesWholePath(ctx: Context, p: Point, color: Color, width: real)
    requires width > 0.0
    ensures var after := ctx.(subpaths := Extended(ctx.subpaths, p), strokeStyle := color, lineWidth := width);
            Perform(ctx, Extend(p, color, width))
            == Painting(after, [Stroked(after.subpaths, color, width, ctx.lineCap, ctx.lineJoin)])
  {
    var styled := ctx.(strokeStyle := color, lineWidth := width);
    var line := [Draw(LineTo(p))] + [Draw(Stroke)];
    LineThenStroke(styled, p);
    PerformQuietFirst(ctx.(strokeStyle := color), SetLineWidth(width), line, styled);
    PerformQuietFirst(ctx, SetStrokeStyle(color), [Draw(SetLineWidth(width))] + line, ctx.(strokeStyle := color));
    assert Extend(p, color, width) == [Draw(SetStrokeStyle(color))] + ([Draw(SetLineWidth(width))] + line);
  }

  /** The strokes that moves through `ps` paint, one per move, on a path that
      already holds `path`, with the given style: each one is the whole path so
      far. */
  function Growing(path: seq<Point>, ps: seq<Point>, color: Color, width: real, cap: LineCap, join: LineJoin): (r: seq<Mark>)
    ensures |r| == |ps|
    decreases |ps|
  {
    if ps == [] then []
    else [Stroked([path + [ps[0]]], color, width, cap, join)] + Growing(path + [ps[0]], ps[1..], color, width, cap, join)
  }

  /** The i-th stroke of a growing path is the starting path followed by the
      first i + 1 moved-to points. */
  lemma {:induction false} GrowingStrokesPrefixes(path: seq<Point>, ps: seq<Point>, color: Color, width: real,
                                                  cap: LineCap, join: LineJoin, i: nat)
    requires i < |ps|
    ensures Growing(path, ps, color, width, cap, join)[i] == Stroked([path + ps[..i + 1]], color, width, cap, join)
    decreases i
  {
    if i == 0 {
      assert ps[..1] == [ps[0]];
    } else {
      GrowingStrokesPrefixes(path + [ps[0]], ps[1..], color, width, cap, join, i - 1);
      assert (path + [ps[0]]) + ps[1..][..i] == path + ps[..i + 1];
    }
  }
}
