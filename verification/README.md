# Drawing pages: pointer input to canvas strokes

This project is a Dafny model of the three drawing pages of a small Next.js
drawing application. Each page turns mouse and touch events into calls on an
HTML canvas 2D context. The model treats each page as a pure state machine:
`Step(page, event)` returns the next page state, the commands the handler
issued, and the marks those commands painted.

- `SegmentPage` models `src/app/drawing/page.tsx`. A press remembers a point.
  Each move while pressed draws one separate round-capped segment from the
  remembered point to the pointer, then saves a snapshot to local storage.
  Release and `mouseout` end the press and save a snapshot. The fill button
  floods the canvas and downloads the image.
- `PathPage` models `src/app/advanceCanvas/page.tsx`. A press (mouse, or the
  first touch) begins a new path. Each move while pressed adds a point and
  strokes the whole path again in the pen colour, 5 wide.
- `ToolPage` models `src/app/drawingPage/page.tsx`. As in `PathPage`, a press
  (mouse, or the first touch) begins a new path, and each move while pressed
  adds a point and strokes the whole path again. It differs from `PathPage` in
  four ways:
  - The stroke style comes from the selected tool. The pen is black and 5
    wide; the eraser is white and 20 wide.
  - A press also records its canvas point as `startPos`.
  - Its only other events are the Pen and Eraser buttons. It has no colour
    inputs, and no element triggers its `saveDrawing`.
  - Its mount effect sets caps and joins but no line width.

The shared parts are modules of their own:

- `Canvas` is an abstract 2D context. It keeps the path as a list of subpaths
  plus the style fields, and it turns each call into a new context and its
  marks. Assigning `width` or `height` puts the context back into its default
  state, as the HTML Living Standard's canvas element section requires ("reset
  the rendering context to its default state").
- `Effects` holds the command list and `Perform`, which interprets it.
- `Traces` holds `Reaction` (the page after some events, the commands issued
  and the marks painted) and `Run`, which folds any page's `Step` over a
  sequence of events. Each page's `Replay` is `Run` of its own `Step`.
- `Pointer` turns a mouse or touch event into a canvas point: the client
  coordinates minus the bounding rectangle's offset, using the first touch
  only.
- `Strokes` holds the begin/extend sequence that the two path pages share.

Mount effects are modelled from a `Host`: whether the element exists, whether
`getContext("2d")` returned a context, and the element's laid-out size. The
snapshot in local storage is an `Option<string>` parameter.

On these points the pages may surprise a reader; the model follows the code:

- The path pages have no handler for the mouse leaving the canvas, so a press
  survives leaving.
- The path pages never save on release.
- `drawing/page.tsx` keeps its last point when a press ends.
- The eraser paints a fixed white (`#ffffff`), not the current background
  colour.

## Model

| member | source | states |
|---|---|---|
| `Pointer.ToSurface` | src/app/advanceCanvas/page.tsx:49-52 | A canvas point exists exactly when the event has a first contact. Adding the rectangle's left/top offset to that point gives back the contact's client position. |
| `Pointer.ViewportRoundTrip` | src/app/advanceCanvas/page.tsx:49-52 | A mouse at a canvas point plus the rectangle offset maps back to that same canvas point. |
| `Pointer.OnlyFirstTouchCounts` | src/app/drawingPage/page.tsx:26 | A touch lands where a mouse at its first contact would; other contacts are ignored. |
| `Pointer.ShiftInvariant` | src/app/advanceCanvas/page.tsx:50-52 | Moving the canvas and the pointer by the same amount leaves the canvas point unchanged. |
| `Pointer.MouseMovesLand` | src/app/advanceCanvas/page.tsx:49-52 | Mouse moves built from canvas points through a rectangle all land on the canvas, and they land on exactly those points, in order. |
| `Effects.ResizeResets` | src/app/advanceCanvas/page.tsx:41-42 | Assigning width and then height clears the bitmap twice and leaves a default-state context at the element's size. |
| `Traces.RunAppend` | src/app/drawing/page.tsx:71-74 | Running two event lists one after the other is the same as running the second from where the first left the page; commands and marks concatenate in order. |
| `Strokes.BeginStartsFreshPath` | src/app/advanceCanvas/page.tsx:51-52 | `beginPath(); moveTo(p)` discards the old path, leaves a path holding only `p`, keeps the styles, and paints nothing. |
| `Strokes.ExtendStrokesWholePath` | src/app/advanceCanvas/page.tsx:62-65 | The style settings then `lineTo(p); stroke()` add `p` to the current subpath and paint exactly one mark: the whole path, in the given colour and width, with the context's caps and joins. |
| `Strokes.GrowingStrokesPrefixes` | src/app/advanceCanvas/page.tsx:62-65 | On a growing path, the i-th stroke is the starting path followed by the first i + 1 moved-to points, in the given colour, width, cap and join. |
| `SegmentPage.BackgroundPaints` | src/app/drawing/page.tsx:23-26 | Sizing clears the canvas once per dimension. The flood then covers the whole resized bitmap in the given colour. |
| `SegmentPage.RestorePaints` | src/app/drawing/page.tsx:29-36 | A non-empty stored snapshot is composited at the origin. An absent or empty one paints nothing. |
| `SegmentPage.InitFillsBeforeRestore` | src/app/drawing/page.tsx:14-40 | With a context, mounting sizes the canvas to the element and fills all of it with the background colour before compositing the snapshot. The session starts idle at (0, 0). Without an element or a context, nothing is drawn and no listener exists. |
| `SegmentPage.SegmentPaintsOneLine` | src/app/drawing/page.tsx:51-57 | One draw step paints exactly one mark: the single line from the last point to the pointer, in the pen colour, 2 wide, round-capped. That line is the only subpath. |
| `SegmentPage.PressStartsSession` | src/app/drawing/page.tsx:43-46 | A press on a wired canvas starts a session at the pressed point, paints nothing and saves nothing. |
| `SegmentPage.IdleMoveIgnored` | src/app/drawing/page.tsx:48-49 | A move with no press in progress changes nothing. |
| `SegmentPage.MoveDrawsOneSegment` | src/app/drawing/page.tsx:48-63 | A move during a press paints one segment from the last point to the pointer, and saves exactly one snapshot after it. The pointer becomes the last point; the colours and the canvas size are unchanged. |
| `SegmentPage.ReleaseEndsSession` | src/app/drawing/page.tsx:65-74 | `mouseup` and `mouseout` end the press, save one snapshot and paint nothing. The last point is kept. |
| `SegmentPage.UnwiredCanvasIgnoresMouse` | src/app/drawing/page.tsx:15-20 | When the mount effect returns early, no listener is attached, and mouse events change nothing. |
| `SegmentPage.FillPaints` | src/app/drawing/page.tsx:115-116 | The fill's two canvas calls paint one flood of the background colour over the whole bitmap. |
| `SegmentPage.FillFloodsThenExports` | src/app/drawing/page.tsx:95-118 | The fill button floods the whole canvas, then ends with a download of "drawing.png". It writes no local snapshot and leaves the session alone. Without a context it does nothing. |
| `SegmentPage.SaveButtonExports` | src/app/drawing/page.tsx:260-268 | The save button leaves the page, the session and the drawing unchanged and paints nothing. It issues a download of "drawing.png" exactly when the canvas element exists, and no other command. |
| `SegmentPage.Chain` | src/app/drawing/page.tsx:55-59 | The i-th expected segment runs from the point before `ps[i]` (the press point when i = 0) to `ps[i]`. |
| `SegmentPage.ChainConnected` | src/app/drawing/page.tsx:55-59 | The expected segments are connected: each is a two-point line, the first starts at the press, and each later one starts where the previous one ended. |
| `SegmentPage.DrawingMovesPaintChain` | src/app/drawing/page.tsx:48-63 | During a press, n moves paint the chain of n segments and save n snapshots. The session stays active and ends at the last move. |
| `SegmentPage.StrokeIsConnected` | src/app/drawing/page.tsx:43-63 | A press followed by moves paints exactly one connected segment per move, starting at the press, and saves once per move. The session is still active, the colours are unchanged, and the last point is the final move (the press point when there are none). |
| `SegmentPage.ReleaseAfter` | src/app/drawing/page.tsx:65-74 | After any events that leave a wired canvas, `mouseup` or `mouseout` ends the session and adds exactly one snapshot save to the commands and nothing to the marks. |
| `SegmentPage.StrokeThenRelease` | src/app/drawing/page.tsx:43-74 | A whole stroke (press, moves through `ps`, then `mouseup` or `mouseout`) paints exactly the connected chain of segments from the press, saves `|ps| + 1` snapshots, and ends the session at the last point reached. |
| `SegmentPage.TapPaintsNothing` | src/app/drawing/page.tsx:43-68 | A press then a release paints nothing. Only the release's snapshot is written. |
| `SegmentPage.IdleMovesIgnored` | src/app/drawing/page.tsx:48-49 | Any number of moves with no press in progress changes nothing. |
| `PathPage.RoundPenQuiet` | src/app/advanceCanvas/page.tsx:36-38 | The mount effect's style settings paint nothing. They set round caps, round joins and width 5. |
| `PathPage.InitAsWrittenLosesRoundPen` | src/app/advanceCanvas/page.tsx:32-44 | As written, the mount effect ends with a default-state context (butt caps, miter joins) at the element's size. The page it leaves is valid and idle, so the trace lemmas below apply to it. |
| `PathPage.InitKeepsRoundPen` | src/app/advanceCanvas/page.tsx:32-44 | With the canvas sized first, the page starts valid, round-styled and idle. It holds a context exactly when the element and a context exist, and that context is the element-sized default with round caps, round joins and width 5. |
| `PathPage.PressBeginsFreshPath` | src/app/advanceCanvas/page.tsx:47-54 | A press on a mounted canvas with a context starts the press and leaves a path holding only the pressed canvas point. It paints nothing. |
| `PathPage.NoSurfaceNoStroke` | src/app/advanceCanvas/page.tsx:47-60 | Without a context, without the element, or for a touch with no contacts, a press or a move changes nothing. |
| `PathPage.MoveExtendsPath` | src/app/advanceCanvas/page.tsx:57-66 | A move during a press adds the moved-to canvas point to the path. It paints one mark: the whole path in the pen colour, 5 wide. |
| `PathPage.IdleMoveIgnored` | src/app/advanceCanvas/page.tsx:58 | A move with no press in progress changes nothing. |
| `PathPage.ReleaseKeepsPath` | src/app/advanceCanvas/page.tsx:69-71 | `mouseup` and `touchend` end the press, keep the path and paint nothing. |
| `PathPage.LeaveIgnored` | src/app/advanceCanvas/page.tsx:210-218 | No listener exists for the mouse leaving the canvas, so leaving changes nothing. |
| `PathPage.ColourInputsOnlyRestyle` | src/app/advanceCanvas/page.tsx:74-81 | Each colour input changes its own colour and nothing else. |
| `PathPage.StepKeepsValid` | src/app/advanceCanvas/page.tsx:47-71 | For a page mounted either way, every event keeps two things true: a context only on a mounted canvas, and a single subpath during a press. No event adds or removes the context or changes its caps and joins. Whatever an event paints is a stroke in the pen colour, 5 wide, with the context's caps and joins; without a context nothing is painted. |
| `PathPage.StepKeepsRoundStyle` | src/app/advanceCanvas/page.tsx:32-71 | Once the context has the round caps and joins the mount effect sets, every event keeps them, and every stroke is round in the pen colour, 5 wide. |
| `PathPage.DragsGrowPath` | src/app/advanceCanvas/page.tsx:57-66 | During a press, moves through `ps` paint one growing stroke each, with the context's caps and joins. They leave the path as the old path followed by `ps`, and the caps and joins unchanged. |
| `PathPage.GesturesGrowPath` | src/app/advanceCanvas/page.tsx:47-66 | During a press, any drag gestures that land on the canvas (mouse or touch, each through its own rectangle, so scrolling mid-stroke is covered) paint one growing stroke each with the context's caps and joins. They leave the path as the old path followed by the landing points. |
| `PathPage.StrokeRetracesWholePath` | src/app/advanceCanvas/page.tsx:47-66 | On any valid page with a context, a press then moves paint one stroke per move, each retracing the whole path from the press with the context's caps and joins. The final path is the press point followed by every moved-to point. |
| `PathPage.TapPaintsNothing` | src/app/advanceCanvas/page.tsx:47-71 | On any page, a press then a release paints nothing and ends the press. With a context, the path is left holding only the pressed point. |
| `PathPage.PressSurvivesLeave` | src/app/advanceCanvas/page.tsx:210-218 | After a press and a leave, the next move still draws the line from the press point, with the context's caps and joins. |
| `PathPage.AsWrittenStrokeIsButtCapped` | src/app/advanceCanvas/page.tsx:32-66 | As written, every stroke after mounting uses butt caps and miter joins, the first one (press point to first move) included. |
| `PathPage.InitStrokeIsRound` | src/app/advanceCanvas/page.tsx:32-66 | With the canvas sized first, every stroke after mounting uses round caps and joins, the first one included. |
| `PathPage.SaveButtonExports` | src/app/advanceCanvas/page.tsx:116-123 | The save button downloads "drawing.png" exactly when the canvas exists. It issues nothing else, paints nothing and changes no state. |
| `ToolPage.ToolStyles` | src/app/drawingPage/page.tsx:51-52 | The eraser, and only the eraser, strokes white and 20 wide. Every other tool strokes black and 5 wide. Every width is positive. |
| `ToolPage.RoundCapsQuiet` | src/app/drawingPage/page.tsx:16-17 | The mount effect's style settings paint nothing. They set round caps and joins and leave the width alone. |
| `ToolPage.InitAsWrittenLosesRoundCaps` | src/app/drawingPage/page.tsx:11-23 | As written, the mount effect ends with a default-state context (butt caps, miter joins) at the element's size. The page it leaves is valid, idle, with the pen selected, so the trace lemmas below apply to it. |
| `ToolPage.InitKeepsRoundCaps` | src/app/drawingPage/page.tsx:11-23 | With the canvas sized first, the page starts valid, round-styled, idle, with the pen selected. It holds a context exactly when the element and a context exist, and that context is the element-sized default with round caps and joins. |
| `ToolPage.PressBeginsFreshPath` | src/app/drawingPage/page.tsx:25-33 | A press leaves a path holding only the pressed point, starts the press, records the point as the start position, and paints nothing. |
| `ToolPage.NoSurfaceNoStroke` | src/app/drawingPage/page.tsx:25-49 | Without a context, without the element, or for a touch with no contacts, a press or a move changes nothing. |
| `ToolPage.MoveStrokesInToolStyle` | src/app/drawingPage/page.tsx:46-56 | A move during a press adds the moved-to point and paints one mark: the whole path, in the selected tool's colour and width. |
| `ToolPage.IdleMoveIgnored` | src/app/drawingPage/page.tsx:47 | A move with no press in progress changes nothing. |
| `ToolPage.ReleaseKeepsPath` | src/app/drawingPage/page.tsx:90-93 | `mouseup` and `touchend` end the press, keep the path and paint nothing. |
| `ToolPage.ToolButtonsOnlySelect` | src/app/drawingPage/page.tsx:62-80 | The Pen and Eraser buttons change the selected tool and nothing else. |
| `ToolPage.StepKeepsValid` | src/app/drawingPage/page.tsx:25-93 | For a page mounted either way, every event keeps two things true: a context only on a mounted canvas, and a single subpath during a press. No event adds or removes the context or changes its caps and joins. Whatever an event paints is a stroke in the current tool's colour and width, with the context's caps and joins; without a context nothing is painted. |
| `ToolPage.StepKeepsRoundStyle` | src/app/drawingPage/page.tsx:11-93 | Once the context has the round caps and joins the mount effect sets, every event keeps them, and every stroke is round in the current tool's style. |
| `ToolPage.MoveGrowsPath` | src/app/drawingPage/page.tsx:46-56 | On a valid page during a press, one move lengthens the single subpath by the point and paints it whole in the tool's style with the context's caps and joins. The tool, the start position, and the caps and joins are unchanged. |
| `ToolPage.DragsGrowPath` | src/app/drawingPage/page.tsx:46-56 | During a press, moves through `ps` paint one growing stroke each in the tool's style with the context's caps and joins. They leave the path as the old path followed by `ps`. |
| `ToolPage.GesturesGrowPath` | src/app/drawingPage/page.tsx:25-56 | During a press, any drag gestures that land on the canvas (mouse or touch, each through its own rectangle) paint one growing stroke each in the tool's style with the context's caps and joins. They leave the path as the old path followed by the landing points, and keep the tool and the start position. |
| `ToolPage.StrokeRetracesWholePath` | src/app/drawingPage/page.tsx:25-56 | On any valid page with a context, a press then moves paint one stroke per move, each retracing the whole path from the press with the context's caps and joins. The press point becomes the start position. |
| `ToolPage.TapPaintsNothing` | src/app/drawingPage/page.tsx:25-93 | On any page, a press then a release paints nothing, ends the press and keeps the tool. With a context, the path holds only the pressed point, which is also the start position. |
| `ToolPage.EraserThenMove` | src/app/drawingPage/page.tsx:51-55 | Picking the eraser during a press and then moving strokes the whole path so far white and 20 wide, with the context's caps and joins. |
| `ToolPage.EraserRepaintsWholeStroke` | src/app/drawingPage/page.tsx:46-80 | Switching to the eraser mid-stroke does not start a new path. The next move re-strokes the whole path white and 20 wide, the pen's part included, whatever the context's caps and joins. |
| `ToolPage.AsWrittenStrokeIsButtCapped` | src/app/drawingPage/page.tsx:11-56 | As written, every stroke after mounting is black and 5 wide with butt caps and miter joins, the first one (press point to first move) included. |
| `ToolPage.InitStrokeIsRound` | src/app/drawingPage/page.tsx:11-56 | With the canvas sized first, every stroke after mounting is black and 5 wide with round caps and joins. |

## Left out

- The 5-second autosave timer in `drawing/page.tsx` is time-driven, not input-driven.
- The mount effect of `drawing/page.tsx` re-runs (with listener cleanup) whenever the pen or canvas colour changes. This is framework lifecycle. `PenColorPicked` only changes the pen colour, and the re-run's resize, re-fill, restore and session reset are not modelled.
- The mount effect's cleanup on unmount is not modelled: unmounting is not an event here.
- Pixels are not modelled. Marks say what was painted and with which style, not which pixels change, so the "fill hides earlier strokes" property is not stated.
- `toDataURL` encoding, snapshot decoding, and the contents of local storage are not modelled. A snapshot is an opaque string, and `Restore` composites it if it is non-empty; a decode failure, which leaves the filled background, is not distinguished.
- The asynchronous `Image.onload` is not modelled. The restore composite is placed right after the background fill, as if the image loaded before any input.
- React state batching and re-rendering are not modelled. Handlers see the state of the latest step, and the stored context is the same object the handlers mutate.
- Colour strings are not validated or parsed, as in the source.
- The Back button (router navigation) and all markup and styling are not modelled.
- The unwired Pen, Brush and Eraser buttons of `drawing/page.tsx` (lines 163-202 and 236-254), and the pencil button that only clicks the hidden colour input in `advanceCanvas/page.tsx`, have no behaviour of their own.
- `saveDrawing` in `drawingPage/page.tsx` is defined but never attached to any element, so it is not modelled.
- `src/app/canvasOnly/page.tsx` is not part of this model.
- The canvas model covers only the calls the pages issue. Other context state (transforms, clipping, shadows, compositing modes) is not modelled.

## Findings

| source | as written | input that shows it | evidently intended | confidence | as-written member | corrected member |
|---|---|---|---|---|---|---|
| src/app/advanceCanvas/page.tsx:32-44 | Sets `lineCap`, `lineJoin` and `lineWidth` on the context, then assigns `canvas.width` and `canvas.height`. Assigning them resets the context to its default state. | Mount with an element and a context, press at (0, 0), move to (1, 1): the stroke uses butt caps and miter joins. | Size the canvas first, so that strokes are round-capped and round-joined. | not executed | `PathPage.AsWrittenStrokeIsButtCapped` | `PathPage.InitStrokeIsRound` |
| src/app/drawingPage/page.tsx:11-23 | Sets `lineCap` and `lineJoin`, then assigns `canvas.width` and `canvas.height`, which resets them. | Mount with an element and a context, press, move: the stroke uses butt caps and miter joins. | Size the canvas first, so that strokes are round-capped and round-joined. | not executed | `ToolPage.AsWrittenStrokeIsButtCapped` | `ToolPage.InitStrokeIsRound` |

In both path pages the width-5 pen still looks right in practice, because every
move sets `lineWidth` again before stroking; only the round caps and joins are
lost. The step and trace lemmas hold for a page mounted either way: they carry the
context's caps and joins through instead of assuming round ones. `Init` is the
corrected mount effect, and `InitAsWritten` the one the pages run.
