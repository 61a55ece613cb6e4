/** The pen-and-eraser page: a press (mouse or first touch) begins a new path at
    the pressed canvas point and remembers it as the start position; every move
    while pressed adds the moved-to point to that path and strokes the whole path
    again in the selected tool's style, black 5 wide for the pen and white 20
    wide for the eraser. Release ends the press; leaving the canvas does not. */
module ToolPage {
  import opened Wrappers
  import opened Canvas
  import opened Effects
  import opened Traces
  import opened Pointer
  import Strokes

  const PenTool: string := "pen"
  const EraserTool: string := "eraser"

  const PenColor: Color := "#000000"
  const PenWidth: real := 5.0
  const EraserColor: Color := "#ffffff"
  const EraserWidth: real := 20.0

  /** `mounted`: the canvas element exists; `context`: the 2D context the page
      keeps in its state; `tool`: the selected tool's name; `startPos`: the
      canvas point of the last press. */
  datatype Page = Page(mounted: bool, context: Option<Context>, drawing: bool, tool: string, startPos: Point)

  datatype Event =
    | Input(g: Gesture)
    | PenClicked
    | EraserClicked

  /** Issues commands on the page's context: the page keeps the context they
      leave behind and the reaction records what they painted. */
  function Issue(page: Page, cmds: seq<Command>): Reaction<Page>
    requires page.context.Some?
  {
    var out := Perform(page.context.value, cmds);
    Reaction(page.(context := Some(out.ctx)), cmds, out.marks)
  }

  /** The stroke colour of a tool: white for the eraser, black for any other. */
  function ToolColor(tool: string): Color {
    if tool == EraserTool then EraserColor else PenColor
  }

  /** The stroke width of a tool: 20 for the eraser, 5 for any other. */
  function ToolWidth(tool: string): real {
    if tool == EraserTool then EraserWidth else PenWidth
  }

  /** The eraser paints white and wide; every other tool name paints black and
      narrow; no tool has a width the context would ignore. */
  lemma ToolStyles(tool: string)
    ensures ToolWidth(tool) > 0.0
    ensures ToolColor(tool) == EraserColor <==> tool == EraserTool
    ensures ToolWidth(tool) == EraserWidth <==> tool == EraserTool
    ensures tool != EraserTool ==> ToolColor(tool) == PenColor && ToolWidth(tool) == PenWidth
  {
  }

  /** The style settings of the mount effect. */
  function RoundCaps(): seq<Command> {
    [Draw(SetLineCap(RoundCap)), Draw(SetLineJoin(RoundJoin))]
  }

  /** The page before its mount effect has run: the pen selected, no press, the
      start position at the origin. */
  function Mounting(host: Host): Page {
    Page(host.mounted, None, false, PenTool, Point(0.0, 0.0))
  }

  /** The mount effect as written: set round caps and joins on the new context,
      then size the canvas, which puts the context back into its default state.
      Sizing a canvas without a context changes nothing the page can see. */
  function InitAsWritten(host: Host): Reaction<Page> {
    var page := Mounting(host);
    if !host.mounted || !host.hasContext then Quiet(page)
    else Issue(page.(context := Some(Fresh(DefaultWidth, DefaultHeight))), RoundCaps() + Resize(host.width, host.height))
  }

  /** The mount effect with the canvas sized first, so that the round caps and
      joins it sets are the ones strokes use. */
  function Init(host: Host): Reaction<Page> {
    var page := Mounting(host);
    if !host.mounted || !host.hasContext then Quiet(page)
    else Issue(page.(context := Some(Fresh(DefaultWidth, DefaultHeight))), Resize(host.width, host.height) + RoundCaps())
  }

  /** `startDrawing`: the contact is read first, so a touch without contacts
      throws before anything happens; then, with a context and a canvas, begin a
      new path at the contact's canvas point, start the press and remember the
      point. */
  function StartDrawing(page: Page, e: ClientEvent, rect: Rect): Reaction<Page> {
    match ToSurface(e, rect)
    case None => Quiet(page)
    case Some(p) =>
      if page.context.None? || !page.mounted then Quiet(page)
      else Issue(page.(drawing := true, startPos := p), Strokes.Begin(p))
  }

  /** `handleDraw`: during a press and with a context, add the canvas point of the
      first contact to the path and stroke the whole path in the tool's style. A
      touch without contacts, or a missing canvas, throws before any drawing. */
  function HandleDraw(page: Page, e: ClientEvent, rect: Rect): Reaction<Page> {
    if !page.drawing || page.context.None? then Quiet(page)
    else
      match ToSurface(e, rect)
      case None => Quiet(page)
      case Some(p) =>
        if !page.mounted then Quiet(page)
        else Issue(page, Strokes.Extend(p, ToolColor(page.tool), ToolWidth(page.tool)))
  }

  /** The canvas's listeners and the two tool buttons; nothing listens for the
      mouse leaving the canvas. */
  function Step(page: Page, event: Event): Reaction<Page> {
    match event
    case Input(g) =>
      if IsPress(g) then StartDrawing(page, Contact(g), g.rect)
      else if IsDrag(g) then HandleDraw(page, Contact(g), g.rect)
      else if IsRelease(g) then Quiet(page.(drawing := false))
      else Quiet(page)
    case PenClicked => Quiet(page.(tool := PenTool))
    case EraserClicked => Quiet(page.(tool := EraserTool))
  }

  // ---------------------------------------------------------------- mounting

  /** The mount effect's style settings paint nothing and set round caps and
      joins, leaving the width alone. */
  lemma RoundCapsQuiet(ctx: Context)
    ensures Perform(ctx, RoundCaps()) == Painting(ctx.(lineCap := RoundCap, lineJoin := RoundJoin), [])
  {
    var c1 := ctx.(lineCap := RoundCap);
    var c2 := c1.(lineJoin := RoundJoin);
    PerformQuietFirst(c1, SetLineJoin(RoundJoin), [], c2);
    assert [Draw(SetLineJoin(RoundJoin))] + [] == [Draw(SetLineJoin(RoundJoin))];
    PerformQuietFirst(ctx, SetLineCap(RoundCap), [Draw(SetLineJoin(RoundJoin))], c1);
    assert RoundCaps() == [Draw(SetLineCap(RoundCap))] + [Draw(SetLineJoin(RoundJoin))];
  }

  /** As written, the mount effect's round caps and joins do not survive it: the
      context ends in its default state, with butt caps and miter joins. */
  lemma InitAsWrittenLosesRoundCaps(host: Host)
    requires host.mounted && host.hasContext
    ensures InitAsWritten(host).page.context == Some(Fresh(host.width, host.height))
    ensures InitAsWritten(host).page.context.value.lineCap == ButtCap
    ensures InitAsWritten(host).page.context.value.lineJoin == MiterJoin
    ensures Valid(InitAsWritten(host).page) && !InitAsWritten(host).page.drawing
    ensures InitAsWritten(host).page.tool == PenTool
  {
    var ctx := Fresh(DefaultWidth, DefaultHeight);
    PerformAppend(ctx, RoundCaps(), Resize(host.width, host.height));
    RoundCapsQuiet(ctx);
    ResizeResets(Perform(ctx, RoundCaps()).ctx, host.width, host.height);
  }

  /** Mounting with the canvas sized first yields a context over the element's
      size with round caps and joins; without an element or context the page
      keeps no context. Either way the page starts valid and idle with the pen
      selected. */
  lemma InitKeepsRoundCaps(host: Host)
    ensures var r := Init(host);
            && Valid(r.page)
            && RoundStyled(r.page)
            && !r.page.drawing
            && r.page.tool == PenTool
            && (r.page.context.Some? <==> host.mounted && host.hasContext)
            && (r.page.context.Some? ==>
                  r.page.context.value == Fresh(host.width, host.height).(lineCap := RoundCap, lineJoin := RoundJoin))
  {
    if host.mounted && host.hasContext {
      var ctx := Fresh(DefaultWidth, DefaultHeight);
      PerformAppend(ctx, Resize(host.width, host.height), RoundCaps());
      ResizeResets(ctx, host.width, host.height);
      RoundCapsQuiet(Fresh(host.width, host.height));
    }
  }

  // ---------------------------------------------------------------- single steps

  /** What the page keeps true between events, whichever way it was mounted: a
      context only over a mounted canvas, and during a press a path of exactly
      one subpath. */
  predicate Valid(page: Page) {
    && (page.context.Some? ==> page.mounted)
    && (page.drawing ==> page.context.Some? && |page.context.value.subpaths| == 1)
  }

  /** The context, if any, has the round caps and joins the mount effect asks for. */
  predicate RoundStyled(page: Page) {
    page.context.Some? ==> page.context.value.lineCap == RoundCap && page.context.value.lineJoin == RoundJoin
  }

  /** A press on a mounted canvas with a context begins a fresh path holding only
      the pressed canvas point, starts the press and records the point as the
      start position; nothing is painted. */
  lemma PressBeginsFreshPath(page: Page, g: Gesture)
    requires IsPress(g) && page.context.Some? && page.mounted
    requires ToSurface(Contact(g), g.rect).Some?
    ensures var p := ToSurface(Contact(g), g.rect).value;
            Step(page, Input(g))
            == Reaction(page.(drawing := true, startPos := p, context := Some(page.context.value.(subpaths := [[p]]))),
                        Strokes.Begin(p), [])
  {
    Strokes.BeginStartsFreshPath(page.context.value, ToSurface(Contact(g), g.rect).value);
  }

  /** Without a context or canvas element, or for a touch without contacts, a
      press or a move does nothing. */
  lemma NoSurfaceNoStroke(page: Page, g: Gesture)
    requires IsPress(g) || IsDrag(g)
    requires page.context.None? || !page.mounted || ToSurface(Contact(g), g.rect).None?
    ensures Step(page, Input(g)) == Quiet(page)
  {
  }

  /** A move during a press adds exactly one point, the moved-to canvas point, to
      the path and strokes the whole path in the selected tool's colour and
      width. */
  lemma MoveStrokesInToolStyle(page: Page, g: Gesture)
    requires IsDrag(g) && page.drawing && page.context.Some? && page.mounted
    requires ToSurface(Contact(g), g.rect).Some?
    ensures var p := ToSurface(Contact(g), g.rect).value;
            var ctx := page.context.value;
            var color := ToolColor(page.tool);
            var width := ToolWidth(page.tool);
            var after := ctx.(subpaths := Extended(ctx.subpaths, p), strokeStyle := color, lineWidth := width);
            Step(page, Input(g))
            == Reaction(page.(context := Some(after)), Strokes.Extend(p, color, width),
                        [Stroked(after.subpaths, color, width, ctx.lineCap, ctx.lineJoin)])
  {
    ToolStyles(page.tool);
    Strokes.ExtendStrokesWholePath(page.context.value, ToSurface(Contact(g), g.rect).value, ToolColor(page.tool), ToolWidth(page.tool));
  }

  /** A move with no press in progress changes nothing. */
  lemma IdleMoveIgnored(page: Page, g: Gesture)
    requires IsDrag(g) && !page.drawing
    ensures Step(page, Input(g)) == Quiet(page)
  {
  }

  /** `mouseup` and `touchend` end the press and leave the path where it is. */
  lemma ReleaseKeepsPath(page: Page, g: Gesture)
    requires IsRelease(g)
    ensures Step(page, Input(g)) == Quiet(page.(drawing := false))
  {
  }

  /** The tool buttons change the selected tool only: not the path, not the press,
      and nothing is painted until the next move. */
  lemma ToolButtonsOnlySelect(page: Page)
    ensures Step(page, PenClicked) == Quiet(page.(tool := PenTool))
    ensures Step(page, EraserClicked) == Quiet(page.(tool := EraserTool))
  {
  }

  /** Every mark is a stroke in colour `color` and width `width`, with caps `cap`
      and joins `join`. */
  predicate StyledStrokes(marks: seq<Mark>, color: Color, width: real, cap: LineCap, join: LineJoin) {
    forall i :: 0 <= i < |marks| ==>
      marks[i].Stroked? && marks[i] == Stroked(marks[i].path, color, width, cap, join)
  }

  /** Every event keeps the page valid and keeps the context's caps and joins as
      they were; whatever it paints is a stroke in the selected tool's colour and
      width with those caps and joins, and without a context it paints nothing. */
  lemma StepKeepsValid(page: Page, e: Event)
    requires Valid(page)
    ensures var r := Step(page, e);
            && Valid(r.page)
            && (r.page.context.Some? <==> page.context.Some?)
            && (page.context.Some? ==>
                  var ctx := page.context.value;
                  && r.page.context.value.lineCap == ctx.lineCap
                  && r.page.context.value.lineJoin == ctx.lineJoin
                  && StyledStrokes(r.marks, ToolColor(page.tool), ToolWidth(page.tool), ctx.lineCap, ctx.lineJoin))
            && (page.context.None? ==> r.marks == [])
  {
    if e.Input? && (IsPress(e.g) || IsDrag(e.g)) {
      var g := e.g;
      if page.context.None? || !page.mounted || ToSurface(Contact(g), g.rect).None? {
        NoSurfaceNoStroke(page, g);
      } else if IsPress(g) {
        PressBeginsFreshPath(page, g);
      } else if page.drawing {
        MoveStrokesInToolStyle(page, g);
        var ctx := page.context.value;
        assert ctx.subpaths == [ctx.subpaths[0]];
        ExtendedSingle(ctx.subpaths[0], ToSurface(Contact(g), g.rect).value);
      }
    }
  }

  /** Once the context has round caps and joins, every event keeps them, and
      every stroke is round-capped and round-joined in the selected tool's style. */
  lemma StepKeepsRoundStyle(page: Page, e: Event)
    requires Valid(page) && RoundStyled(page)
    ensures RoundStyled(Step(page, e).page)
    ensures StyledStrokes(Step(page, e).marks, ToolColor(page.tool), ToolWidth(page.tool), RoundCap, RoundJoin)
  {
    StepKeepsValid(page, e);
  }

  // ---------------------------------------------------------------- event traces

  /** The page after a sequence of events, with every command issued and every
      mark painted along the way, in order. */
  function Replay(page: Page, events: seq<Event>): Reaction<Page> {
    Run(Step, page, events)
  }

  /** A mouse press at canvas point `p`, seen through rectangle `rect`. */
  function PressAt(p: Point, rect: Rect): Event {
    Input(MouseDown(ToViewport(p, rect), rect))
  }

  /** A mouse move to canvas point `p`, seen through rectangle `rect`. */
  function DragTo(p: Point, rect: Rect): Event {
    Input(MouseMove(ToViewport(p, rect), rect))
  }

  /** The events of some pointer gestures on the canvas. */
  function Inputs(gs: seq<Gesture>): seq<Event> {
    seq(|gs|, i requires 0 <= i < |gs| => Input(gs[i]))
  }

  /** Mouse moves through the canvas points `ps`, seen through rectangle `rect`. */
  function Drags(ps: seq<Point>, rect: Rect): seq<Event> {
    Inputs(MouseMoves(ps, rect))
  }

  /** One move during a press, on a valid page: the path gains the point and is
      stroked whole in the tool's style with the context's caps and joins. */
  lemma MoveGrowsPath(page: Page, path: seq<Point>, p: Point, rect: Rect)
    requires Valid(page) && page.drawing && page.context.value.subpaths == [path]
    ensures var r := Step(page, DragTo(p, rect));
            var ctx := page.context.value;
            && r.marks == [Stroked([path + [p]], ToolColor(page.tool), ToolWidth(page.tool), ctx.lineCap, ctx.lineJoin)]
            && Valid(r.page)
            && r.page.drawing
            && r.page.tool == page.tool
            && r.page.startPos == page.startPos
            && r.page.context.value.lineCap == ctx.lineCap
            && r.page.context.value.lineJoin == ctx.lineJoin
            && r.page.context.value.subpaths == [path + [p]]
  {
    var g := MouseMove(ToViewport(p, rect), rect);
    ViewportRoundTrip(p, rect);
    MoveStrokesInToolStyle(page, g);
    ExtendedSingle(path, p);
    StepKeepsValid(page, Input(g));
  }

  /** Moves during a press, by mouse or by touch and through whatever rectangle
      each one reads, each add the point they land on to the single subpath and
      stroke it whole in the selected tool's style with the context's caps and
      joins. */
  lemma {:induction false} GesturesGrowPath(page: Page, path: seq<Point>, gs: seq<Gesture>)
    requires Valid(page) && page.drawing && page.context.value.subpaths == [path]
    requires Lands(gs)
    ensures var r := Replay(page, Inputs(gs));
            var ctx := page.context.value;
            && r.marks == Strokes.Growing(path, Landing(gs), ToolColor(page.tool), ToolWidth(page.tool), ctx.lineCap, ctx.lineJoin)
            && Valid(r.page)
            && r.page.drawing
            && r.page.tool == page.tool
            && r.page.startPos == page.startPos
            && r.page.context.value.lineCap == ctx.lineCap
            && r.page.context.value.lineJoin == ctx.lineJoin
            && r.page.context.value.subpaths == [path + Landing(gs)]
    decreases |gs|
  {
    if gs == [] {
      assert Landing(gs) == [];
      assert path + [] == path;
    } else {
      var events := Inputs(gs);
      assert events[0] == Input(gs[0]);
      assert events[1..] == Inputs(gs[1..]);
      assert Lands(gs[1..]) by {
        forall i | 0 <= i < |gs[1..]|
          ensures IsDrag(gs[1..][i]) && ToSurface(Contact(gs[1..][i]), gs[1..][i].rect).Some?
        {
          assert gs[1..][i] == gs[i + 1];
        }
      }
      var p := ToSurface(Contact(gs[0]), gs[0].rect).value;
      assert Landing(gs) == [p] + Landing(gs[1..]);
      MoveStrokesInToolStyle(page, gs[0]);
      ExtendedSingle(path, p);
      StepKeepsValid(page, Input(gs[0]));
      GesturesGrowPath(Step(page, Input(gs[0])).page, path + [p], gs[1..]);
      assert (path + [p]) + Landing(gs[1..]) == path + Landing(gs);
    }
  }

  /** Mouse moves through canvas points during a press each add one point to the
      single subpath and stroke it whole in the selected tool's style with the
      context's caps and joins. */
  lemma DragsGrowPath(page: Page, path: seq<Point>, ps: seq<Point>, rect: Rect)
    requires Valid(page) && page.drawing && page.context.value.subpaths == [path]
    ensures var r := Replay(page, Drags(ps, rect));
            var ctx := page.context.value;
            && r.marks == Strokes.Growing(path, ps, ToolColor(page.tool), ToolWidth(page.tool), ctx.lineCap, ctx.lineJoin)
            && Valid(r.page)
            && r.page.drawing
            && r.page.tool == page.tool
            && r.page.startPos == page.startPos
            && r.page.context.value.lineCap == ctx.lineCap
            && r.page.context.value.lineJoin == ctx.lineJoin
            && r.page.context.value.subpaths == [path + ps]
  {
    MouseMovesLand(ps, rect);
    GesturesGrowPath(page, path, MouseMoves(ps, rect));
  }

  /** A press and moves through `ps` paint one stroke per move, each retracing
      the whole path from the press in the selected tool's style, remember the
      press point as the start position, and leave the path holding the press
      point and every moved-to point. */
  lemma StrokeRetracesWholePath(page: Page, start: Point, ps: seq<Point>, rect: Rect)
    requires Valid(page) && page.context.Some?
    ensures var r := Replay(page, [PressAt(start, rect)] + Drags(ps, rect));
            var ctx := page.context.value;
            && r.marks == Strokes.Growing([start], ps, ToolColor(page.tool), ToolWidth(page.tool), ctx.lineCap, ctx.lineJoin)
            && r.page.startPos == start
            && r.page.context.Some?
            && r.page.context.value.subpaths == [[start] + ps]
  {
    var events := [PressAt(start, rect)] + Drags(ps, rect);
    assert events[1..] == Drags(ps, rect);
    var g := MouseDown(ToViewport(start, rect), rect);
    ViewportRoundTrip(start, rect);
    PressBeginsFreshPath(page, g);
    StepKeepsValid(page, Input(g));
    DragsGrowPath(Step(page, Input(g)).page, [start], ps, rect);
  }

  /** A press released without moving paints nothing and ends the press; on a
      canvas with a context the path is left holding only the pressed point,
      which is also the recorded start position. */
  lemma TapPaintsNothing(page: Page, start: Point, rect: Rect)
    ensures var r := Replay(page, [PressAt(start, rect), Input(MouseUp)]);
            && r.marks == []
            && !r.page.drawing
            && r.page.tool == page.tool
            && (page.context.Some? && page.mounted ==>
                  && r.page.context == Some(page.context.value.(subpaths := [[start]]))
                  && r.page.startPos == start)
  {
    var g := MouseDown(ToViewport(start, rect), rect);
    ViewportRoundTrip(start, rect);
    if page.context.Some? && page.mounted {
      PressBeginsFreshPath(page, g);
    } else {
      NoSurfaceNoStroke(page, g);
    }
    var pressed := Step(page, Input(g)).page;
    assert [PressAt(start, rect), Input(MouseUp)][1..] == [Input(MouseUp)];
    assert Replay(pressed, [Input(MouseUp)]) == Quiet(pressed.(drawing := false));
  }

  /** Picking the eraser during a press, then moving, strokes the whole path so
      far white and 20 wide, with the context's caps and joins. */
  lemma EraserThenMove(page: Page, path: seq<Point>, p: Point, rect: Rect)
    requires Valid(page) && page.drawing && page.context.value.subpaths == [path]
    ensures var ctx := page.context.value;
            Replay(page, [EraserClicked, DragTo(p, rect)]).marks
            == [Stroked([path + [p]], EraserColor, EraserWidth, ctx.lineCap, ctx.lineJoin)]
  {
    var erasing := page.(tool := EraserTool);
    MoveGrowsPath(erasing, path, p, rect);
    RunFirst(Step, page, EraserClicked, [DragTo(p, rect)]);
    RunFirst(Step, erasing, DragTo(p, rect), []);
    assert [EraserClicked] + [DragTo(p, rect)] == [EraserClicked, DragTo(p, rect)];
    assert [DragTo(p, rect)] + [] == [DragTo(p, rect)];
  }

  /** Picking the eraser in the middle of a pen stroke does not start a new path:
      the next move strokes the whole path, the pen's part included, white and 20
      wide. */
  lemma EraserRepaintsWholeStroke(page: Page, start: Point, a: Point, b: Point, rect: Rect)
    requires Valid(page) && page.context.Some? && page.tool == PenTool
    ensures var ctx := page.context.value;
            Replay(page, [PressAt(start, rect), DragTo(a, rect), EraserClicked, DragTo(b, rect)]).marks
            == [Stroked([[start, a]], PenColor, PenWidth, ctx.lineCap, ctx.lineJoin),
                Stroked([[start, a, b]], EraserColor, EraserWidth, ctx.lineCap, ctx.lineJoin)]
  {
    var pressed := page.(drawing := true, startPos := start, context := Some(page.context.value.(subpaths := [[start]])));
    var tail := [EraserClicked, DragTo(b, rect)];
    PressThenMarks(page, start, rect, [DragTo(a, rect)] + tail);
    assert [PressAt(start, rect), DragTo(a, rect), EraserClicked, DragTo(b, rect)] == [PressAt(start, rect)] + ([DragTo(a, rect)] + tail);
    MoveGrowsPath(pressed, [start], a, rect);
    assert [start] + [a] == [start, a];
    var moved := Step(pressed, DragTo(a, rect)).page;
    EraserThenMove(moved, [start, a], b, rect);
    assert [start, a] + [b] == [start, a, b];
    RunFirst(Step, pressed, DragTo(a, rect), tail);
  }

  /** A press on a page with a context paints nothing itself: what the events
      after it paint is what they paint on the freshly begun path. */
  lemma PressThenMarks(page: Page, start: Point, rect: Rect, rest: seq<Event>)
    requires Valid(page) && page.context.Some?
    ensures var pressed := page.(drawing := true, startPos := start, context := Some(page.context.value.(subpaths := [[start]])));
            && Valid(pressed)
            && Replay(page, [PressAt(start, rect)] + rest).marks == Replay(pressed, rest).marks
  {
    var g := MouseDown(ToViewport(start, rect), rect);
    ViewportRoundTrip(start, rect);
    PressBeginsFreshPath(page, g);
    RunFirst(Step, page, PressAt(start, rect), rest);
  }

  /** As written, every stroke after mounting is drawn black and 5 wide with butt
      caps and miter joins, not the round ones the mount effect asks for; the
      first one, from the press to the first move, already is. */
  lemma AsWrittenStrokeIsButtCapped(host: Host, start: Point, ps: seq<Point>, rect: Rect)
    requires host.mounted && host.hasContext
    ensures var marks := Replay(InitAsWritten(host).page, [PressAt(start, rect)] + Drags(ps, rect)).marks;
            && marks == Strokes.Growing([start], ps, PenColor, PenWidth, ButtCap, MiterJoin)
            && (ps != [] ==> marks[0] == Stroked([[start, ps[0]]], PenColor, PenWidth, ButtCap, MiterJoin))
  {
    InitAsWrittenLosesRoundCaps(host);
    StrokeRetracesWholePath(InitAsWritten(host).page, start, ps, rect);
    if ps != [] {
      Strokes.GrowingStrokesPrefixes([start], ps, PenColor, PenWidth, ButtCap, MiterJoin, 0);
      assert [start] + ps[..1] == [start, ps[0]];
    }
  }

  /** With the canvas sized first, every stroke after mounting is black and 5
      wide with the round caps and joins the mount effect asks for. */
  lemma InitStrokeIsRound(host: Host, start: Point, ps: seq<Point>, rect: Rect)
    requires host.mounted && host.hasContext
    ensures var marks := Replay(Init(host).page, [PressAt(start, rect)] + Drags(ps, rect)).marks;
            && marks == Strokes.Growing([start], ps, PenColor, PenWidth, RoundCap, RoundJoin)
            && (ps != [] ==> marks[0] == Stroked([[start, ps[0]]], PenColor, PenWidth, RoundCap, RoundJoin))
  {
    InitKeepsRoundCaps(host);
    StrokeRetracesWholePath(Init(host).page, start, ps, rect);
    if ps != [] {
      Strokes.GrowingStrokesPrefixes([start], ps, PenColor, PenWidth, RoundCap, RoundJoin, 0);
      assert [start] + ps[..1] == [start, ps[0]];
    }
  }
}
