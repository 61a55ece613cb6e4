/** The path-drawing page with a colour picker: a press (mouse or first touch)
    begins a new path at the pressed canvas point, and every move while pressed
    adds the moved-to point to that path and strokes the whole path again in the
    current pen colour, 5 wide. Release ends the press; leaving the canvas does
    not. The background colour only styles the element behind the canvas. */
module PathPage {
  import opened Wrappers
  import opened Canvas
  import opened Effects
  import opened Traces
  import opened Pointer
  import Strokes

  const InitialPenColor: Color := "#100000"
  const InitialCanvasColor: Color := "#333333"

  /** Every stroke is drawn this wide. */
  const PenWidth: real := 5.0

  /** `mounted`: the canvas element exists; `context`: the 2D context the page
      keeps in its state, absent until the mount effect stores it. */
  datatype Page = Page(mounted: bool, context: Option<Context>, drawing: bool, penColor: Color, canvasColor: Color)

  datatype Event =
    | Input(g: Gesture)
    | PenColorInput(color: Color)
    | CanvasColorInput(color: Color)
    | SaveClicked

  /** Issues commands on the page's context: the page keeps the context they
      leave behind and the reaction records what they painted. */
  function Issue(page: Page, cmds: seq<Command>): Reaction<Page>
    requires page.context.Some?
  {
    var out := Perform(page.context.value, cmds);
    Reaction(page.(context := Some(out.ctx)), cmds, out.marks)
  }

  /** The style settings of the mount effect. */
  function RoundPen(): seq<Command> {
    [Draw(SetLineCap(RoundCap)), Draw(SetLineJoin(RoundJoin)), Draw(SetLineWidth(PenWidth))]
  }

  /** The page before its mount effect has run. */
  function Mounting(host: Host): Page {
    Page(host.mounted, None, false, InitialPenColor, InitialCanvasColor)
  }

  /** The mount effect as written: set round caps and joins and width 5 on the
      new context, then size the canvas, which puts the context back into its
      default state. */
  function InitAsWritten(host: Host): Reaction<Page> {
    var page := Mounting(host);
    if !host.mounted || !host.hasContext then Quiet(page)
    else Issue(page.(context := Some(Fresh(DefaultWidth, DefaultHeight))), RoundPen() + Resize(host.width, host.height))
  }

  /** The mount effect with the canvas sized first, so that the round caps and
      joins it sets are the ones strokes use. */
  function Init(host: Host): Reaction<Page> {
    var page := Mounting(host);
    if !host.mounted || !host.hasContext then Quiet(page)
    else Issue(page.(context := Some(Fresh(DefaultWidth, DefaultHeight))), Resize(host.width, host.height) + RoundPen())
  }

  /** `startDrawing`: without a context or canvas, nothing; otherwise begin a new
      path at the canvas point of the first contact and start the press. */
  function StartDrawing(page: Page, e: ClientEvent, rect: Rect): Reaction<Page> {
    if page.context.None? || !page.mounted then Quiet(page)
    else
      match ToSurface(e, rect)
      case None => Quiet(page)
      case Some(p) => Issue(page.(drawing := true), Strokes.Begin(p))
  }

  /** `handleDraw`: during a press, add the canvas point of the first contact to
      the path and stroke the whole path in the pen colour, 5 wide. */
  function HandleDraw(page: Page, e: ClientEvent, rect: Rect): Reaction<Page> {
    if !page.drawing || page.context.None? || !page.mounted then Quiet(page)
    else
      match ToSurface(e, rect)
      case None => Quiet(page)
      case Some(p) => Issue(page, Strokes.Extend(p, page.penColor, PenWidth))
  }

  /** `stopDrawing`: end the press; the path stays in the context. */
  function StopDrawing(page: Page): Reaction<Page> {
    Quiet(page.(drawing := false))
  }

  /** The canvas's listeners: press on `mousedown`/`touchstart`, draw on
      `mousemove`/`touchmove`, stop on `mouseup`/`touchend`; nothing listens for
      the mouse leaving the canvas. */
  function Step(page: Page, event: Event): Reaction<Page> {
    match event
    case Input(g) =>
      if IsPress(g) then StartDrawing(page, Contact(g), g.rect)
      else if IsDrag(g) then HandleDraw(page, Contact(g), g.rect)
      else if IsRelease(g) then StopDrawing(page)
      else Quiet(page)
    case PenColorInput(c) => Quiet(page.(penColor := c))
    case CanvasColorInput(c) => Quiet(page.(canvasColor := c))
    case SaveClicked => if page.mounted then Reaction(page, [Export(ExportName)], []) else Quiet(page)
  }

  // ---------------------------------------------------------------- mounting

  /** The mount effect's style settings paint nothing and set round caps and
      joins and width 5. */
  lemma RoundPenQuiet(ctx: Context)
    ensures Perform(ctx, RoundPen())
         == Painting(ctx.(lineCap := RoundCap, lineJoin := RoundJoin, lineWidth := PenWidth), [])
  {
    var c1 := ctx.(lineCap := RoundCap);
    var c2 := c1.(lineJoin := RoundJoin);
    var c3 := c2.(lineWidth := PenWidth);
    PerformQuietFirst(c2, SetLineWidth(PenWidth), [], c3);
    PerformQuietFirst(c1, SetLineJoin(RoundJoin), [Draw(SetLineWidth(PenWidth))], c2);
    PerformQuietFirst(ctx, SetLineCap(RoundCap), [Draw(SetLineJoin(RoundJoin))] + [Draw(SetLineWidth(PenWidth))], c1);
    assert RoundPen() == [Draw(SetLineCap(RoundCap))] + ([Draw(SetLineJoin(RoundJoin))] + [Draw(SetLineWidth(PenWidth))]);
    assert [Draw(SetLineWidth(PenWidth))] + [] == [Draw(SetLineWidth(PenWidth))];
  }

  /** As written, the mount effect's round caps and joins and width 5 do not
      survive it: the context ends in its default state, with butt caps and
      miter joins. */
  lemma InitAsWrittenLosesRoundPen(host: Host)
    requires host.mounted && host.hasContext
    ensures InitAsWritten(host).page.context == Some(Fresh(host.width, host.height))
    ensures InitAsWritten(host).page.context.value.lineCap == ButtCap
    ensures InitAsWritten(host).page.context.value.lineJoin == MiterJoin
    ensures Valid(InitAsWritten(host).page) && !InitAsWritten(host).page.drawing
  {
    var ctx := Fresh(DefaultWidth, DefaultHeight);
    PerformAppend(ctx, RoundPen(), Resize(host.width, host.height));
    RoundPenQuiet(ctx);
    ResizeResets(Perform(ctx, RoundPen()).ctx, host.width, host.height);
  }

  /** Mounting with the canvas sized first yields a context over the element's
      size with round caps and joins; without an element or context the page
      keeps no context. Either way the page starts valid and idle. */
  lemma InitKeepsRoundPen(host: Host)
    ensures var r := Init(host);
            && Valid(r.page)
            && RoundStyled(r.page)
            && !r.page.drawing
            && (r.page.context.Some? <==> host.mounted && host.hasContext)
            && (r.page.context.Some? ==>
                  r.page.context.value
                  == Fresh(host.width, host.height).(lineCap := RoundCap, lineJoin := RoundJoin, lineWidth := PenWidth))
  {
    if host.mounted && host.hasContext {
      var ctx := Fresh(DefaultWidth, DefaultHeight);
      PerformAppend(ctx, Resize(host.width, host.height), RoundPen());
      ResizeResets(ctx, host.width, host.height);
      RoundPenQuiet(Fresh(host.width, host.height));
    }
  }

  // ---------------------------------------------------------------- single steps

  /** What the page keeps true between events, whichever way it was mounted: a
      context only over a mounted canvas, and during a press a path of exactly
      one subpath. */
  predicate Valid(page: Page) {
    && (page.context.Some? ==> page.mounted)
    && (page.drawing ==> page.context.Some? && |page.context.value.subpaths| == 1)
  }

  /** The context, if any, has the round caps and joins the mount effect asks for. */
  predicate RoundStyled(page: Page) {
    page.context.Some? ==> page.context.value.lineCap == RoundCap && page.context.value.lineJoin == RoundJoin
  }

  /** A press on a mounted canvas with a context begins a fresh path holding only
      the pressed canvas point and starts the press; nothing is painted. */
  lemma PressBeginsFreshPath(page: Page, g: Gesture)
    requires IsPress(g) && page.context.Some? && page.mounted
    requires ToSurface(Contact(g), g.rect).Some?
    ensures var p := ToSurface(Contact(g), g.rect).value;
            Step(page, Input(g))
            == Reaction(page.(drawing := true, context := Some(page.context.value.(subpaths := [[p]]))), Strokes.Begin(p), [])
  {
    Strokes.BeginStartsFreshPath(page.context.value, ToSurface(Contact(g), g.rect).value);
  }

  /** Without a context or canvas element, or for a touch without contacts, a
      press or a move does nothing. */
  lemma NoSurfaceNoStroke(page: Page, g: Gesture)
    requires IsPress(g) || IsDrag(g)
    requires page.context.None? || !page.mounted || ToSurface(Contact(g), g.rect).None?
    ensures Step(page, Input(g)) == Quiet(page)
  {
  }

  /** A move during a press adds exactly one point, the moved-to canvas point, to
      the path and strokes the whole path in the pen colour, 5 wide. */
  lemma MoveExtendsPath(page: Page, g: Gesture)
    requires IsDrag(g) && page.drawing && page.context.Some? && page.mounted
    requires ToSurface(Contact(g), g.rect).Some?
    ensures var p := ToSurface(Contact(g), g.rect).value;
            var ctx := page.context.value;
            var after := ctx.(subpaths := Extended(ctx.subpaths, p), strokeStyle := page.penColor, lineWidth := PenWidth);
            Step(page, Input(g))
            == Reaction(page.(context := Some(after)), Strokes.Extend(p, page.penColor, PenWidth),
                        [Stroked(after.subpaths, page.penColor, PenWidth, ctx.lineCap, ctx.lineJoin)])
  {
    Strokes.ExtendStrokesWholePath(page.context.value, ToSurface(Contact(g), g.rect).value, page.penColor, PenWidth);
  }

  /** A move with no press in progress changes nothing. */
  lemma IdleMoveIgnored(page: Page, g: Gesture)
    requires IsDrag(g) && !page.drawing
    ensures Step(page, Input(g)) == Quiet(page)
  {
  }

  /** `mouseup` and `touchend` end the press and leave the path where it is. */
  lemma ReleaseKeepsPath(page: Page, g: Gesture)
    requires IsRelease(g)
    ensures Step(page, Input(g)) == Quiet(page.(drawing := false))
  {
  }

  /** Nothing listens for the mouse leaving the canvas: a press in progress goes
      on. */
  lemma LeaveIgnored(page: Page)
    ensures Step(page, Input(MouseLeave)) == Quiet(page)
  {
  }

  /** Picking a colour changes that colour only: not the path, not the press. */
  lemma ColourInputsOnlyRestyle(page: Page, c: Color)
    ensures Step(page, PenColorInput(c)) == Quiet(page.(penColor := c))
    ensures Step(page, CanvasColorInput(c)) == Quiet(page.(canvasColor := c))
  {
  }

  /** Every mark is a stroke in colour `color`, 5 wide, with caps `cap` and joins
      `join`. */
  predicate PenStrokes(marks: seq<Mark>, color: Color, cap: LineCap, join: LineJoin) {
    forall i :: 0 <= i < |marks| ==>
      marks[i].Stroked? && marks[i] == Stroked(marks[i].path, color, PenWidth, cap, join)
  }

  /** Every event keeps the page valid and keeps the context's caps and joins as
      they were; whatever it paints is a stroke in the pen colour, 5 wide, with
      those caps and joins, and without a context it paints nothing. */
  lemma StepKeepsValid(page: Page, e: Event)
    requires Valid(page)
    ensures var r := Step(page, e);
            && Valid(r.page)
            && (r.page.context.Some? <==> page.context.Some?)
            && (page.context.Some? ==>
                  var ctx := page.context.value;
                  && r.page.context.value.lineCap == ctx.lineCap
                  && r.page.context.value.lineJoin == ctx.lineJoin
                  && PenStrokes(r.marks, page.penColor, ctx.lineCap, ctx.lineJoin))
            && (page.context.None? ==> r.marks == [])
  {
    if e.Input? && (IsPress(e.g) || IsDrag(e.g)) {
      var g := e.g;
      if page.context.None? || !page.mounted || ToSurface(Contact(g), g.rect).None? {
        NoSurfaceNoStroke(page, g);
      } else if IsPress(g) {
        PressBeginsFreshPath(page, g);
      } else if page.drawing {
        MoveExtendsPath(page, g);
        var ctx := page.context.value;
        assert ctx.subpaths == [ctx.subpaths[0]];
        ExtendedSingle(ctx.subpaths[0], ToSurface(Contact(g), g.rect).value);
      }
    }
  }

  /** Once the context has round caps and joins, every event keeps them, and
      every stroke is round-capped and round-joined in the pen colour, 5 wide. */
  lemma StepKeepsRoundStyle(page: Page, e: Event)
    requires Valid(page) && RoundStyled(page)
    ensures RoundStyled(Step(page, e).page)
    ensures PenStrokes(Step(page, e).marks, page.penColor, RoundCap, RoundJoin)
  {
    StepKeepsValid(page, e);
  }

  // ---------------------------------------------------------------- event traces

  /** The page after a sequence of events, with every command issued and every
      mark painted along the way, in order. */
  function Replay(page: Page, events: seq<Event>): Reaction<Page> {
    Run(Step, page, events)
  }

  /** A mouse press at canvas point `p`, seen through rectangle `rect`. */
  function PressAt(p: Point, rect: Rect): Event {
    Input(MouseDown(ToViewport(p, rect), rect))
  }

  /** A mouse move to canvas point `p`, seen through rectangle `rect`. */
  function DragTo(p: Point, rect: Rect): Event {
    Input(MouseMove(ToViewport(p, rect), rect))
  }

  /** The events of some pointer gestures on the canvas. */
  function Inputs(gs: seq<Gesture>): seq<Event> {
    seq(|gs|, i requires 0 <= i < |gs| => Input(gs[i]))
  }

  /** Mouse moves through the canvas points `ps`, seen through rectangle `rect`. */
  function Drags(ps: seq<Point>, rect: Rect): seq<Event> {
    Inputs(MouseMoves(ps, rect))
  }

  /** Moves during a press, by mouse or by touch and through whatever rectangle
      each one reads, each add the point they land on to the single subpath and
      stroke it whole in the pen colour, 5 wide, with the context's caps and
      joins. */
  lemma {:induction false} GesturesGrowPath(page: Page, path: seq<Point>, gs: seq<Gesture>)
    requires Valid(page) && page.drawing && page.context.value.subpaths == [path]
    requires Lands(gs)
    ensures var r := Replay(page, Inputs(gs));
            var ctx := page.context.value;
            && r.marks == Strokes.Growing(path, Landing(gs), page.penColor, PenWidth, ctx.lineCap, ctx.lineJoin)
            && Valid(r.page)
            && r.page.drawing
            && r.page.penColor == page.penColor
            && r.page.context.value.lineCap == ctx.lineCap
            && r.page.context.value.lineJoin == ctx.lineJoin
            && r.page.context.value.subpaths == [path + Landing(gs)]
    decreases |gs|
  {
    if gs == [] {
      assert Landing(gs) == [];
      assert path + [] == path;
    } else {
      var events := Inputs(gs);
      assert events[0] == Input(gs[0]);
      assert events[1..] == Inputs(gs[1..]);
      assert Lands(gs[1..]) by {
        forall i | 0 <= i < |gs[1..]|
          ensures IsDrag(gs[1..][i]) && ToSurface(Contact(gs[1..][i]), gs[1..][i].rect).Some?
        {
          assert gs[1..][i] == gs[i + 1];
        }
      }
      var p := ToSurface(Contact(gs[0]), gs[0].rect).value;
      assert Landing(gs) == [p] + Landing(gs[1..]);
      MoveExtendsPath(page, gs[0]);
      ExtendedSingle(path, p);
      StepKeepsValid(page, Input(gs[0]));
      GesturesGrowPath(Step(page, Input(gs[0])).page, path + [p], gs[1..]);
      assert (path + [p]) + Landing(gs[1..]) == path + Landing(gs);
    }
  }

  /** Mouse moves through canvas points during a press each add one point to the
      single subpath and stroke it whole in the pen colour, 5 wide, with the
      context's caps and joins. */
  lemma DragsGrowPath(page: Page, path: seq<Point>, ps: seq<Point>, rect: Rect)
    requires Valid(page) && page.drawing && page.context.value.subpaths == [path]
    ensures var r := Replay(page, Drags(ps, rect));
            var ctx := page.context.value;
            && r.marks == Strokes.Growing(path, ps, page.penColor, PenWidth, ctx.lineCap, ctx.lineJoin)
            && Valid(r.page)
            && r.page.drawing
            && r.page.penColor == page.penColor
            && r.page.context.value.lineCap == ctx.lineCap
            && r.page.context.value.lineJoin == ctx.lineJoin
            && r.page.context.value.subpaths == [path + ps]
  {
    MouseMovesLand(ps, rect);
    GesturesGrowPath(page, path, MouseMoves(ps, rect));
  }

  /** A press and moves through `ps` paint one stroke per move, each retracing
      the whole path from the press to that move with the context's caps and
      joins, and leave the path holding the press point and every moved-to
      point. */
  lemma StrokeRetracesWholePath(page: Page, start: Point, ps: seq<Point>, rect: Rect)
    requires Valid(page) && page.context.Some?
    ensures var r := Replay(page, [PressAt(start, rect)] + Drags(ps, rect));
            var ctx := page.context.value;
            && r.marks == Strokes.Growing([start], ps, page.penColor, PenWidth, ctx.lineCap, ctx.lineJoin)
            && r.page.context.Some?
            && r.page.context.value.subpaths == [[start] + ps]
  {
    var events := [PressAt(start, rect)] + Drags(ps, rect);
    assert events[1..] == Drags(ps, rect);
    var g := MouseDown(ToViewport(start, rect), rect);
    ViewportRoundTrip(start, rect);
    PressBeginsFreshPath(page, g);
    StepKeepsValid(page, Input(g));
    DragsGrowPath(Step(page, Input(g)).page, [start], ps, rect);
  }

  /** A press released without moving paints nothing and ends the press; on a
      canvas with a context the path is left holding only the pressed point. */
  lemma TapPaintsNothing(page: Page, start: Point, rect: Rect)
    ensures var r := Replay(page, [PressAt(start, rect), Input(MouseUp)]);
            && r.marks == []
            && !r.page.drawing
            && (page.context.Some? && page.mounted ==> r.page.context == Some(page.context.value.(subpaths := [[start]])))
  {
    var g := MouseDown(ToViewport(start, rect), rect);
    ViewportRoundTrip(start, rect);
    if page.context.Some? && page.mounted {
      PressBeginsFreshPath(page, g);
    } else {
      NoSurfaceNoStroke(page, g);
    }
    var pressed := Step(page, Input(g)).page;
    assert [PressAt(start, rect), Input(MouseUp)][1..] == [Input(MouseUp)];
    assert Replay(pressed, [Input(MouseUp)]) == Quiet(pressed.(drawing := false));
  }

  /** Leaving the canvas mid-press does not end the press: the next move, once
      the pointer is back, still draws the line from the press point. */
  lemma PressSurvivesLeave(page: Page, start: Point, next: Point, rect: Rect)
    requires Valid(page) && page.context.Some?
    ensures var ctx := page.context.value;
            Replay(page, [PressAt(start, rect), Input(MouseLeave), DragTo(next, rect)]).marks
            == [Stroked([[start, next]], page.penColor, PenWidth, ctx.lineCap, ctx.lineJoin)]
  {
    var ctx := page.context.value;
    var pressed := page.(drawing := true, context := Some(ctx.(subpaths := [[start]])));
    PressThenMarks(page, start, rect, [Input(MouseLeave), DragTo(next, rect)]);
    RunFirst(Step, pressed, Input(MouseLeave), [DragTo(next, rect)]);
    assert [PressAt(start, rect), Input(MouseLeave), DragTo(next, rect)]
        == [PressAt(start, rect)] + ([Input(MouseLeave)] + [DragTo(next, rect)]);
    assert Drags([next], rect) == [DragTo(next, rect)];
    DragsGrowPath(pressed, [start], [next], rect);
    assert [start] + [next] == [start, next];
    assert Strokes.Growing([start], [next], page.penColor, PenWidth, ctx.lineCap, ctx.lineJoin)
        == [Stroked([[start, next]], page.penColor, PenWidth, ctx.lineCap, ctx.lineJoin)];
  }

  /** A press on a page with a context paints nothing itself: what the events
      after it paint is what they paint on the freshly begun path. */
  lemma PressThenMarks(page: Page, start: Point, rect: Rect, rest: seq<Event>)
    requires Valid(page) && page.context.Some?
    ensures var pressed := page.(drawing := true, context := Some(page.context.value.(subpaths := [[start]])));
            && Valid(pressed)
            && Replay(page, [PressAt(start, rect)] + rest).marks == Replay(pressed, rest).marks
  {
    var g := MouseDown(ToViewport(start, rect), rect);
    ViewportRoundTrip(start, rect);
    PressBeginsFreshPath(page, g);
    RunFirst(Step, page, PressAt(start, rect), rest);
  }

  /** As written, every stroke after mounting is drawn with butt caps and miter
      joins, not the round ones the mount effect asks for; the first one, from
      the press to the first move, already is. */
  lemma AsWrittenStrokeIsButtCapped(host: Host, start: Point, ps: seq<Point>, rect: Rect)
    requires host.mounted && host.hasContext
    ensures var marks := Replay(InitAsWritten(host).page, [PressAt(start, rect)] + Drags(ps, rect)).marks;
            && marks == Strokes.Growing([start], ps, InitialPenColor, PenWidth, ButtCap, MiterJoin)
            && (ps != [] ==> marks[0] == Stroked([[start, ps[0]]], InitialPenColor, PenWidth, ButtCap, MiterJoin))
  {
    InitAsWrittenLosesRoundPen(host);
    StrokeRetracesWholePath(InitAsWritten(host).page, start, ps, rect);
    if ps != [] {
      Strokes.GrowingStrokesPrefixes([start], ps, InitialPenColor, PenWidth, ButtCap, MiterJoin, 0);
      assert [start] + ps[..1] == [start, ps[0]];
    }
  }

  /** With the canvas sized first, every stroke after mounting has the round caps
      and joins the mount effect asks for, the first one included. */
  lemma InitStrokeIsRound(host: Host, start: Point, ps: seq<Point>, rect: Rect)
    requires host.mounted && host.hasContext
    ensures var marks := Replay(Init(host).page, [PressAt(start, rect)] + Drags(ps, rect)).marks;
            && marks == Strokes.Growing([start], ps, InitialPenColor, PenWidth, RoundCap, RoundJoin)
            && (ps != [] ==> marks[0] == Stroked([[start, ps[0]]], InitialPenColor, PenWidth, RoundCap, RoundJoin))
  {
    InitKeepsRoundPen(host);
    StrokeRetracesWholePath(Init(host).page, start, ps, rect);
    if ps != [] {
      Strokes.GrowingStrokesPrefixes([start], ps, InitialPenColor, PenWidth, RoundCap, RoundJoin, 0);
      assert [start] + ps[..1] == [start, ps[0]];
    }
  }

  /** The save button downloads the canvas once when the canvas exists, and
      otherwise does nothing; either way the page and the drawing are left as
      they are. */
  lemma SaveButtonExports(page: Page)
    ensures Step(page, SaveClicked).page == page
    ensures Step(page, SaveClicked).marks == []
    ensures Export(ExportName) in Step(page, SaveClicked).cmds <==> page.mounted
    ensures forall c :: c in Step(page, SaveClicked).cmds ==> c == Export(ExportName)
  {
  }
}
