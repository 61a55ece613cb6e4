/** The segment-drawing page: a mouse press remembers a point, and every move
    while the button is held paints one independent round-capped line from the
    remembered point to the pointer and then remembers the pointer. Each move and
    each release writes a snapshot to local storage; a fill button floods the
    canvas with the background colour and downloads the image. */
module SegmentPage {
  import opened Wrappers
  import opened Canvas
  import opened Effects
  import opened Traces

  const InitialPenColor: Color := "black"
  const InitialCanvasColor: Color := "#FFFFFF"

  /** Every segment is drawn this wide. */
  const SegmentWidth: real := 2.0

  /** What the page holds of its canvas. Without a 2D context the mount effect
      stops early and no mouse listener is attached. */
  datatype Surface = Unmounted | NoContext | Ready(ctx: Context)

  /** The page's state: its surface, the two colours, and the stroke session of
      the mouse listeners (whether a press is in progress and the last point). */
  datatype Page = Page(surface: Surface, penColor: Color, canvasColor: Color, drawing: bool, last: Point)

  /** Mouse positions are `offsetX`/`offsetY`, already relative to the canvas. */
  datatype Event =
    | MouseDown(at: Point)
    | MouseMove(at: Point)
    | MouseUp
    | MouseOut
    | PenColorPicked(color: Color)
    | FillClicked
    | SaveClicked

  /** Issues commands on a ready surface: the page keeps the context they leave
      behind and the reaction records what they painted. */
  function Issue(page: Page, cmds: seq<Command>): Reaction<Page>
    requires page.surface.Ready?
  {
    var out := Perform(page.surface.ctx, cmds);
    Reaction(page.(surface := Ready(out.ctx)), cmds, out.marks)
  }

  /** Sizes the canvas to its element and floods it with `color`. */
  function Background(width: nat, height: nat, color: Color): seq<Command> {
    [Draw(SetWidth(width)), Draw(SetHeight(height)), Draw(SetFillStyle(color)),
     Draw(FillRect(0.0, 0.0, width as real, height as real))]
  }

  /** Composites the stored snapshot, when storage holds a non-empty one. */
  function Restore(saved: Option<string>): seq<Command> {
    if saved.Some? && saved.value != "" then [Draw(DrawImage(saved.value, 0.0, 0.0))] else []
  }

  /** The mount effect: size the canvas, fill it with the background colour, then
      put the stored snapshot on top. The session starts idle at (0, 0). */
  function Init(host: Host, saved: Option<string>): Reaction<Page> {
    var page := Page(Unmounted, InitialPenColor, InitialCanvasColor, false, Point(0.0, 0.0));
    if !host.mounted then Quiet(page)
    else if !host.hasContext then Quiet(page.(surface := NoContext))
    else
      Issue(page.(surface := Ready(Fresh(DefaultWidth, DefaultHeight))),
            Background(host.width, host.height, InitialCanvasColor) + Restore(saved))
  }

  /** One segment from `a` to `b`, drawn as a path of its own. */
  function Segment(a: Point, b: Point, color: Color): seq<Command> {
    [Draw(BeginPath), Draw(SetStrokeStyle(color)), Draw(SetLineWidth(SegmentWidth)), Draw(SetLineCap(RoundCap)),
     Draw(MoveTo(a)), Draw(LineTo(b)), Draw(Stroke)]
  }

  /** The fill button: flood the whole canvas with the background colour, then
      download the image (the page's download helper, not the local save). */
  function Fill(ctx: Context, color: Color): seq<Command> {
    [Draw(SetFillStyle(color)), Draw(FillRect(0.0, 0.0, ctx.width as real, ctx.height as real)), Export(ExportName)]
  }

  /** `mouseup` and `mouseout` both stop the session and save a snapshot, whether
      or not a press was in progress. */
  function Release(page: Page): Reaction<Page> {
    if page.surface.Ready? then Reaction(page.(drawing := false), [SaveLocal(SnapshotKey)], [])
    else Quiet(page)
  }

  function Step(page: Page, event: Event): Reaction<Page> {
    match event
    case MouseDown(p) =>
      if page.surface.Ready? then Quiet(page.(drawing := true, last := p)) else Quiet(page)
    case MouseMove(p) =>
      if page.surface.Ready? && page.drawing then
        var r := Issue(page, Segment(page.last, p, page.penColor) + [SaveLocal(SnapshotKey)]);
        r.(page := r.page.(last := p))
      else Quiet(page)
    case MouseUp => Release(page)
    case MouseOut => Release(page)
    case PenColorPicked(c) => Quiet(page.(penColor := c))
    case FillClicked =>
      if page.surface.Ready? then Issue(page, Fill(page.surface.ctx, page.canvasColor)) else Quiet(page)
    case SaveClicked =>
      if page.surface.Unmounted? then Quiet(page) else Reaction(page, [Export(ExportName)], [])
  }

  /** The number of snapshot writes among some commands. */
  function SaveCount(cmds: seq<Command>): nat {
    multiset(cmds)[SaveLocal(SnapshotKey)]
  }

  // ---------------------------------------------------------------- single steps

  /** The segment commands, followed by a save, written one command at a time. */
  lemma SegmentShape(a: Point, b: Point, color: Color)
    ensures Segment(a, b, color) + [SaveLocal(SnapshotKey)]
         == [Draw(BeginPath)] + ([Draw(SetStrokeStyle(color))] + ([Draw(SetLineWidth(SegmentWidth))] +
            ([Draw(SetLineCap(RoundCap))] + ([Draw(MoveTo(a))] + ([Draw(LineTo(b))] + ([Draw(Stroke)] +
            [SaveLocal(SnapshotKey)]))))))
  {
  }

  /** The context the segment's style settings and `beginPath` leave behind. */
  function SegmentStyled(ctx: Context, color: Color): Context {
    ctx.(subpaths := [], strokeStyle := color, lineWidth := SegmentWidth, lineCap := RoundCap)
  }

  /** `beginPath` and the three style settings paint nothing. */
  lemma SegmentPrefixQuiet(ctx: Context, color: Color, rest: seq<Command>)
    ensures Perform(ctx, [Draw(BeginPath)] + ([Draw(SetStrokeStyle(color))] + ([Draw(SetLineWidth(SegmentWidth))] +
            ([Draw(SetLineCap(RoundCap))] + rest))))
         == Perform(SegmentStyled(ctx, color), rest)
  {
    var c1 := ctx.(subpaths := []);
    var c2 := c1.(strokeStyle := color);
    var c3 := c2.(lineWidth := SegmentWidth);
    var s3 := [Draw(SetLineCap(RoundCap))] + rest;
    var s2 := [Draw(SetLineWidth(SegmentWidth))] + s3;
    PerformQuietFirst(c3, SetLineCap(RoundCap), rest, SegmentStyled(ctx, color));
    PerformQuietFirst(c2, SetLineWidth(SegmentWidth), s3, c3);
    PerformQuietFirst(c1, SetStrokeStyle(color), s2, c2);
    PerformQuietFirst(ctx, BeginPath, [Draw(SetStrokeStyle(color))] + s2, c1);
  }

  /** `lineTo(b); stroke()` and a save: the line is added and the whole path is
      painted once. */
  lemma LineStrokeSave(ctx: Context, b: Point)
    ensures var done := ctx.(subpaths := Extended(ctx.subpaths, b));
            Perform(ctx, [Draw(LineTo(b))] + ([Draw(Stroke)] + [SaveLocal(SnapshotKey)]))
            == Painting(done, [Stroked(done.subpaths, ctx.strokeStyle, ctx.lineWidth, ctx.lineCap, ctx.lineJoin)])
  {
    var save := [SaveLocal(SnapshotKey)];
    var done := ctx.(subpaths := Extended(ctx.subpaths, b));
    var m := Stroked(done.subpaths, ctx.strokeStyle, ctx.lineWidth, ctx.lineCap, ctx.lineJoin);
    PerformWithoutDraws(done, save);
    assert Apply(done, Stroke) == Painting(done, [m]);
    PerformDrawFirst(done, Stroke, save);
    assert [m] + [] == [m];
    assert Apply(ctx, LineTo(b)) == Painting(done, []);
    PerformQuietFirst(ctx, LineTo(b), [Draw(Stroke)] + save, done);
  }

  /** `moveTo(a); lineTo(b); stroke()` on an empty path paints the line from `a`
      to `b`; the save after it paints nothing. */
  lemma SegmentLinePaints(styled: Context, a: Point, b: Point)
    requires styled.subpaths == []
    ensures Perform(styled, [Draw(MoveTo(a))] + ([Draw(LineTo(b))] + ([Draw(Stroke)] + [SaveLocal(SnapshotKey)])))
         == Painting(styled.(subpaths := [[a, b]]),
                     [Stroked([[a, b]], styled.strokeStyle, styled.lineWidth, styled.lineCap, styled.lineJoin)])
  {
    var started := styled.(subpaths := [[a]]);
    LineStrokeSave(started, b);
    ExtendedSingle([a], b);
    assert [a] + [b] == [a, b];
    PerformQuietFirst(styled, MoveTo(a), [Draw(LineTo(b))] + ([Draw(Stroke)] + [SaveLocal(SnapshotKey)]), started);
  }

  /** Drawing one segment paints exactly that segment, as a path of its own, and
      leaves the pen's colour, width and cap set on the context. */
  lemma SegmentPaintsOneLine(ctx: Context, a: Point, b: Point, color: Color)
    ensures var after := ctx.(subpaths := [[a, b]], strokeStyle := color, lineWidth := SegmentWidth, lineCap := RoundCap);
            Perform(ctx, Segment(a, b, color) + [SaveLocal(SnapshotKey)])
            == Painting(after, [Stroked([[a, b]], color, SegmentWidth, RoundCap, ctx.lineJoin)])
  {
    SegmentShape(a, b, color);
    SegmentPrefixQuiet(ctx, color, [Draw(MoveTo(a))] + ([Draw(LineTo(b))] + ([Draw(Stroke)] + [SaveLocal(SnapshotKey)])));
    SegmentLinePaints(SegmentStyled(ctx, color), a, b);
  }

  /** A press on a wired canvas starts a session at the pressed point: nothing is
      painted and nothing is saved. */
  lemma PressStartsSession(page: Page, p: Point)
    requires page.surface.Ready?
    ensures Step(page, MouseDown(p)) == Reaction(page.(drawing := true, last := p), [], [])
  {
  }

  /** A move with no press in progress is ignored: same page, no command. */
  lemma IdleMoveIgnored(page: Page, p: Point)
    requires !page.drawing
    ensures Step(page, MouseMove(p)) == Quiet(page)
  {
  }

  /** A move during a press paints exactly one segment, from the last point to the
      pointer, in the current pen colour, 2 wide with round caps; it then saves a
      snapshot that already holds the segment, and remembers the pointer as the
      last point. */
  lemma MoveDrawsOneSegment(page: Page, p: Point)
    requires page.surface.Ready? && page.drawing
    ensures var r := Step(page, MouseMove(p));
            && r.marks == [Stroked([[page.last, p]], page.penColor, SegmentWidth, RoundCap, page.surface.ctx.lineJoin)]
            && r.cmds == Segment(page.last, p, page.penColor) + [SaveLocal(SnapshotKey)]
            && SaveCount(r.cmds) == 1
            && r.page.surface.Ready?
            && r.page.surface.ctx.lineJoin == page.surface.ctx.lineJoin
            && r.page.surface.ctx.width == page.surface.ctx.width
            && r.page.surface.ctx.height == page.surface.ctx.height
            && r.page == page.(surface := r.page.surface, last := p)
  {
    SegmentPaintsOneLine(page.surface.ctx, page.last, p, page.penColor);
  }

  /** `mouseup` and `mouseout` end the session and save a snapshot; the last
      point is kept and nothing is painted. */
  lemma ReleaseEndsSession(page: Page, e: Event)
    requires page.surface.Ready?
    requires e == MouseUp || e == MouseOut
    ensures Step(page, e) == Reaction(page.(drawing := false), [SaveLocal(SnapshotKey)], [])
  {
  }

  /** Until a 2D context is obtained no mouse listener exists: mouse events change
      nothing. */
  lemma UnwiredCanvasIgnoresMouse(page: Page, e: Event)
    requires !page.surface.Ready?
    requires e.MouseDown? || e.MouseMove? || e.MouseUp? || e.MouseOut?
    ensures Step(page, e) == Quiet(page)
  {
  }

  /** The two canvas calls of the fill button paint one flood of `color` over
      the whole bitmap; the download after them paints nothing. */
  lemma FillPaints(ctx: Context, color: Color)
    ensures Perform(ctx, Fill(ctx, color))
         == Painting(ctx.(fillStyle := color), [Filled(color, 0.0, 0.0, ctx.width as real, ctx.height as real)])
  {
    var filled := ctx.(fillStyle := color);
    var download := [Export(ExportName)];
    var rect := FillRect(0.0, 0.0, ctx.width as real, ctx.height as real);
    PerformWithoutDraws(filled, download);
    PerformDrawFirst(filled, rect, download);
    PerformQuietFirst(ctx, SetFillStyle(color), [Draw(rect)] + download, filled);
    assert Fill(ctx, color) == [Draw(SetFillStyle(color))] + ([Draw(rect)] + download);
  }

  /** The fill button floods the whole canvas with the background colour and
      then downloads the image as "drawing.png"; it writes no local snapshot and
      leaves the stroke session alone. Without a context it does nothing. */
  lemma FillFloodsThenExports(page: Page)
    ensures var r := Step(page, FillClicked);
            if page.surface.Ready? then
              var ctx := page.surface.ctx;
              && r.marks == [Filled(page.canvasColor, 0.0, 0.0, ctx.width as real, ctx.height as real)]
              && CoversSurface(r.marks[0], ctx.width, ctx.height)
              && r.cmds[|r.cmds| - 1] == Export(ExportName)
              && SaveCount(r.cmds) == 0
              && r.page == page.(surface := Ready(ctx.(fillStyle := page.canvasColor)))
            else r == Quiet(page)
  {
    if page.surface.Ready? {
      FillPaints(page.surface.ctx, page.canvasColor);
    }
  }

  /** The save button downloads the image once whenever the canvas element
      exists, and otherwise does nothing; either way the page, the session and
      the drawing are left as they are. */
  lemma SaveButtonExports(page: Page)
    ensures Step(page, SaveClicked).page == page
    ensures Step(page, SaveClicked).marks == []
    ensures Export(ExportName) in Step(page, SaveClicked).cmds <==> !page.surface.Unmounted?
    ensures forall c :: c in Step(page, SaveClicked).cmds ==> c == Export(ExportName)
  {
  }

  // ---------------------------------------------------------------- mounting

  /** Sizing the canvas clears it twice (once per dimension) and the flood then
      paints every pixel of the resized bitmap. */
  lemma BackgroundPaints(ctx: Context, width: nat, height: nat, color: Color)
    ensures Perform(ctx, Background(width, height, color))
         == Painting(Fresh(width, height).(fillStyle := color),
                     [Cleared(width, ctx.height), Cleared(width, height),
                      Filled(color, 0.0, 0.0, width as real, height as real)])
  {
    var sized := Fresh(width, height);
    var rect := FillRect(0.0, 0.0, width as real, height as real);
    var fill := [Draw(SetFillStyle(color))] + [Draw(rect)];
    PerformDrawFirst(sized.(fillStyle := color), rect, []);
    assert [Draw(rect)] + [] == [Draw(rect)];
    PerformQuietFirst(sized, SetFillStyle(color), [Draw(rect)], sized.(fillStyle := color));
    PerformDrawFirst(Fresh(width, ctx.height), SetHeight(height), fill);
    PerformDrawFirst(ctx, SetWidth(width), [Draw(SetHeight(height))] + fill);
    assert Background(width, height, color) == [Draw(SetWidth(width))] + ([Draw(SetHeight(height))] + fill);
  }

  /** Restoring composites the stored snapshot at the origin, when there is one. */
  lemma RestorePaints(ctx: Context, saved: Option<string>)
    ensures Perform(ctx, Restore(saved))
         == Painting(ctx, if saved.Some? && saved.value != "" then [Composited(saved.value, 0.0, 0.0)] else [])
  {
    if saved.Some? && saved.value != "" {
      PerformDrawFirst(ctx, DrawImage(saved.value, 0.0, 0.0), []);
      assert [Draw(DrawImage(saved.value, 0.0, 0.0))] + [] == Restore(saved);
    }
  }

  /** Mounting with a context clears the canvas to its element's size, floods all
      of it with the background colour, and only then composites the stored
      snapshot, if storage holds a non-empty one; the session starts idle at
      (0, 0). Without an element or a context nothing is drawn and no listener is
      wired. */
  lemma InitFillsBeforeRestore(host: Host, saved: Option<string>)
    ensures var r := Init(host, saved);
            var restored := saved.Some? && saved.value != "";
            if host.mounted && host.hasContext then
              && r.page.surface.Ready?
              && r.page.surface.ctx.width == host.width
              && r.page.surface.ctx.height == host.height
              && r.page.surface.ctx.subpaths == []
              && |r.marks| == (if restored then 4 else 3)
              && r.marks[..3] == [Cleared(host.width, DefaultHeight), Cleared(host.width, host.height),
                                   Filled(InitialCanvasColor, 0.0, 0.0, host.width as real, host.height as real)]
              && CoversSurface(r.marks[2], host.width, host.height)
              && (restored ==> r.marks[3] == Composited(saved.value, 0.0, 0.0))
              && !r.page.drawing
              && r.page.last == Point(0.0, 0.0)
            else
              && r.cmds == []
              && r.marks == []
              && !r.page.surface.Ready?
              && r.page.surface.Unmounted? == !host.mounted
  {
    if host.mounted && host.hasContext {
      var ctx := Fresh(DefaultWidth, DefaultHeight);
      var background := Background(host.width, host.height, InitialCanvasColor);
      PerformAppend(ctx, background, Restore(saved));
      BackgroundPaints(ctx, host.width, host.height, InitialCanvasColor);
      RestorePaints(Perform(ctx, background).ctx, saved);
    }
  }

  // ---------------------------------------------------------------- event traces

  /** The page after a sequence of events, with every command issued and every
      mark painted along the way, in order. */
  function Replay(page: Page, events: seq<Event>): Reaction<Page> {
    Run(Step, page, events)
  }

  /** Mouse moves to each of `ps` in turn. */
  function Moves(ps: seq<Point>): seq<Event> {
    seq(|ps|, i requires 0 <= i < |ps| => MouseMove(ps[i]))
  }

  /** The segments a press at `from` and moves through `ps` should paint: the
      i-th one runs from the point before `ps[i]` to `ps[i]`. */
  function Chain(from: Point, ps: seq<Point>, color: Color, join: LineJoin): (r: seq<Mark>)
    ensures |r| == |ps|
    ensures forall i :: 0 <= i < |ps| ==>
              r[i] == Stroked([[if i == 0 then from else ps[i - 1], ps[i]]], color, SegmentWidth, RoundCap, join)
    decreases |ps|
  {
    if ps == [] then []
    else [Stroked([[from, ps[0]]], color, SegmentWidth, RoundCap, join)] + Chain(ps[0], ps[1..], color, join)
  }

  /** A mark that is one straight line between two points. */
  predicate IsSegment(m: Mark) {
    m.Stroked? && |m.path| == 1 && |m.path[0]| == 2
  }

  /** Every mark is a segment, the first starts at `from`, and each of the others
      starts where the one before it ended. */
  predicate Connected(from: Point, marks: seq<Mark>) {
    && (forall i :: 0 <= i < |marks| ==> IsSegment(marks[i]))
    && (|marks| > 0 ==> marks[0].path[0][0] == from)
    && (forall i :: 0 < i < |marks| ==> marks[i].path[0][0] == marks[i - 1].path[0][1])
  }

  /** The chained segments are connected. */
  lemma ChainConnected(from: Point, ps: seq<Point>, color: Color, join: LineJoin)
    ensures Connected(from, Chain(from, ps, color, join))
  {
    var marks := Chain(from, ps, color, join);
    forall i | 0 <= i < |marks|
      ensures IsSegment(marks[i])
    {
      assert marks[i] == Stroked([[if i == 0 then from else ps[i - 1], ps[i]]], color, SegmentWidth, RoundCap, join);
    }
    forall i | 0 < i < |marks|
      ensures marks[i].path[0][0] == marks[i - 1].path[0][1]
    {
      assert marks[i - 1].path == [[if i - 1 == 0 then from else ps[i - 2], ps[i - 1]]];
    }
  }

  /** Moves during a press paint one segment each, chained from the last point;
      each saves once, and the last point ends at the final move. */
  lemma {:induction false} DrawingMovesPaintChain(page: Page, ps: seq<Point>)
    requires page.surface.Ready? && page.drawing
    ensures var r := Replay(page, Moves(ps));
            && r.marks == Chain(page.last, ps, page.penColor, page.surface.ctx.lineJoin)
            && SaveCount(r.cmds) == |ps|
            && r.page.surface.Ready?
            && r.page.drawing
            && r.page.penColor == page.penColor
            && r.page.canvasColor == page.canvasColor
            && r.page.surface.ctx.lineJoin == page.surface.ctx.lineJoin
            && r.page.last == (if ps == [] then page.last else ps[|ps| - 1])
    decreases |ps|
  {
    if ps != [] {
      var events := Moves(ps);
      assert events[0] == MouseMove(ps[0]);
      assert events[1..] == Moves(ps[1..]);
      MoveDrawsOneSegment(page, ps[0]);
      var first := Step(page, MouseMove(ps[0]));
      DrawingMovesPaintChain(first.page, ps[1..]);
    }
  }

  /** A press followed by moves paints exactly one segment per move, each
      connected end to start with the one before and the first starting at the
      press; a snapshot is saved after every move. */
  lemma StrokeIsConnected(page: Page, start: Point, ps: seq<Point>)
    requires page.surface.Ready?
    ensures var r := Replay(page, [MouseDown(start)] + Moves(ps));
            && r.marks == Chain(start, ps, page.penColor, page.surface.ctx.lineJoin)
            && Connected(start, r.marks)
            && SaveCount(r.cmds) == |ps|
            && r.page.surface.Ready?
            && r.page.drawing
            && r.page.penColor == page.penColor
            && r.page.canvasColor == page.canvasColor
            && r.page.last == (if ps == [] then start else ps[|ps| - 1])
  {
    var pressed := page.(drawing := true, last := start);
    PressThenReplay(page, start, Moves(ps));
    DrawingMovesPaintChain(pressed, ps);
    ChainConnected(start, ps, page.penColor, page.surface.ctx.lineJoin);
  }

  /** Events after a press on a wired canvas act on the started session, and the
      press itself adds no command and no mark. */
  lemma PressThenReplay(page: Page, start: Point, rest: seq<Event>)
    requires page.surface.Ready?
    ensures Replay(page, [MouseDown(start)] + rest) == Replay(page.(drawing := true, last := start), rest)
  {
    PressStartsSession(page, start);
    RunFirst(Step, page, MouseDown(start), rest);
    var r := Replay(page.(drawing := true, last := start), rest);
    assert [] + r.cmds == r.cmds && [] + r.marks == r.marks;
  }

  /** A release after any events on a wired canvas ends the session and adds one
      save and no mark to what those events did. */
  lemma ReleaseAfter(page: Page, xs: seq<Event>, e: Event)
    requires Replay(page, xs).page.surface.Ready?
    requires e == MouseUp || e == MouseOut
    ensures var a := Replay(page, xs);
            Replay(page, xs + [e]) == Reaction(a.page.(drawing := false), a.cmds + [SaveLocal(SnapshotKey)], a.marks)
  {
    var a := Replay(page, xs);
    RunAppend(Step, page, xs, [e]);
    RunFirst(Step, a.page, e, []);
    assert [e] + [] == [e];
    ReleaseEndsSession(a.page, e);
    assert a.marks + [] == a.marks;
  }

  /** A whole stroke, press, moves and release: it paints exactly the chained
      segments from the press, saves once per move and once more on release,
      and ends the session at the last point reached. */
  lemma StrokeThenRelease(page: Page, start: Point, ps: seq<Point>, e: Event)
    requires page.surface.Ready?
    requires e == MouseUp || e == MouseOut
    ensures var r := Replay(page, [MouseDown(start)] + Moves(ps) + [e]);
            && r.marks == Chain(start, ps, page.penColor, page.surface.ctx.lineJoin)
            && Connected(start, r.marks)
            && SaveCount(r.cmds) == |ps| + 1
            && r.page.surface.Ready?
            && !r.page.drawing
            && r.page.penColor == page.penColor
            && r.page.last == (if ps == [] then start else ps[|ps| - 1])
  {
    var xs := [MouseDown(start)] + Moves(ps);
    StrokeIsConnected(page, start, ps);
    ReleaseAfter(page, xs, e);
    var a := Replay(page, xs);
    assert multiset(a.cmds + [SaveLocal(SnapshotKey)]) == multiset(a.cmds) + multiset([SaveLocal(SnapshotKey)]);
  }

  /** A press released without moving leaves no mark and leaves the canvas as it
      was; only the release's snapshot is written. */
  lemma TapPaintsNothing(page: Page, p: Point)
    requires page.surface.Ready?
    ensures Replay(page, [MouseDown(p), MouseUp])
         == Reaction(page.(drawing := false, last := p), [SaveLocal(SnapshotKey)], [])
  {
    var pressed := page.(drawing := true, last := p);
    assert [MouseDown(p), MouseUp][1..] == [MouseUp];
    assert Replay(pressed, [MouseUp]) == Reaction(page.(drawing := false, last := p), [SaveLocal(SnapshotKey)], []);
  }

  /** With no press in progress, any number of moves changes nothing. */
  lemma {:induction false} IdleMovesIgnored(page: Page, ps: seq<Point>)
    requires !page.drawing
    ensures Replay(page, Moves(ps)) == Quiet(page)
    decreases |ps|
  {
    if ps != [] {
      assert Moves(ps)[1..] == Moves(ps[1..]);
      IdleMovesIgnored(page, ps[1..]);
    }
  }
}
