/** The input normaliser of the two path-drawing pages: a mouse or touch event is
    turned into a point in the canvas's own pixel coordinates. */
module Pointer {
  import opened Wrappers
  import opened Canvas

  /** The position part of a React mouse or touch event: the viewport position
      of a mouse event, or the list of contacts of a touch event. */
  datatype ClientEvent = Mouse(client: Point) | Touch(touches: seq<Point>)

  /** The viewport offset of the canvas element's bounding rectangle. */
  datatype Rect = Rect(left: real, top: real)

  /** The pointer events a canvas element can receive, each with the bounding
      rectangle the handler would read if it asked for it. */
  datatype Gesture =
    | MouseDown(client: Point, rect: Rect)
    | MouseMove(client: Point, rect: Rect)
    | MouseUp
    | MouseLeave
    | TouchStart(touches: seq<Point>, rect: Rect)
    | TouchMove(touches: seq<Point>, rect: Rect)
    | TouchEnd

  /** Gestures that start a press: `mousedown` and `touchstart`. */
  predicate IsPress(g: Gesture) {
    g.MouseDown? || g.TouchStart?
  }

  /** Gestures that move the pointer: `mousemove` and `touchmove`. */
  predicate IsDrag(g: Gesture) {
    g.MouseMove? || g.TouchMove?
  }

  /** Gestures that end a press on the canvas: `mouseup` and `touchend`. */
  predicate IsRelease(g: Gesture) {
    g.MouseUp? || g.TouchEnd?
  }

  /** The position part of a press or drag gesture. */
  function Contact(g: Gesture): ClientEvent
    requires IsPress(g) || IsDrag(g)
  {
    if g.MouseDown? || g.MouseMove? then Mouse(g.client) else Touch(g.touches)
  }

  /** The contact whose coordinates a handler reads: the mouse itself, or the
      first touch. A touch event without contacts has none, and reading
      `e.touches[0]` there throws before the handler does anything. */
  function FirstContact(e: ClientEvent): Option<Point> {
    match e
    case Mouse(c) => Some(c)
    case Touch(ts) => if |ts| == 0 then None else Some(ts[0])
  }

  /** Moves a canvas-local point back into viewport coordinates. */
  function ToViewport(p: Point, rect: Rect): Point {
    Point(p.x + rect.left, p.y + rect.top)
  }

  /** The canvas-local point of an event: its contact's client coordinates minus
      the rectangle's left and top offsets. It is exactly the point that the
      rectangle's offset takes back to the contact. */
  function ToSurface(e: ClientEvent, rect: Rect): (r: Option<Point>)
    ensures r.Some? <==> FirstContact(e).Some?
    ensures r.Some? ==> ToViewport(r.value, rect) == FirstContact(e).value
  {
    match FirstContact(e)
    case None => None
    case Some(c) => Some(Point(c.x - rect.left, c.y - rect.top))
  }

  /** Pointer moves that each land on the canvas: every one is a `mousemove` or
      `touchmove` with a contact to read. */
  predicate Lands(gs: seq<Gesture>) {
    forall i :: 0 <= i < |gs| ==> IsDrag(gs[i]) && ToSurface(Contact(gs[i]), gs[i].rect).Some?
  }

  /** The canvas points such moves land on, in order. */
  function Landing(gs: seq<Gesture>): seq<Point>
    requires Lands(gs)
  {
    seq(|gs|, i requires 0 <= i < |gs| && Lands(gs) => ToSurface(Contact(gs[i]), gs[i].rect).value)
  }

  /** Mouse moves through the canvas points `ps`, seen through rectangle `rect`. */
  function MouseMoves(ps: seq<Point>, rect: Rect): seq<Gesture> {
    seq(|ps|, i requires 0 <= i < |ps| => MouseMove(ToViewport(ps[i], rect), rect))
  }

  /** Mouse moves through canvas points land on exactly those points. */
  lemma MouseMovesLand(ps: seq<Point>, rect: Rect)
    ensures Lands(MouseMoves(ps, rect))
    ensures Landing(MouseMoves(ps, rect)) == ps
  {
    var gs := MouseMoves(ps, rect);
    forall i | 0 <= i < |ps|
      ensures IsDrag(gs[i]) && ToSurface(Contact(gs[i]), gs[i].rect) == Some(ps[i])
    {
      ViewportRoundTrip(ps[i], rect);
    }
  }

  /** Going to viewport coordinates and back gives the point back. */
  lemma ViewportRoundTrip(p: Point, rect: Rect)
    ensures ToSurface(Mouse(ToViewport(p, rect)), rect) == Some(p)
  {
  }

  /** Only the first contact of a touch counts: any further contacts are ignored,
      and a one-finger touch lands where a mouse at the same place would. */
  lemma OnlyFirstTouchCounts(first: Point, others: seq<Point>, rect: Rect)
    ensures ToSurface(Touch([first] + others), rect) == ToSurface(Mouse(first), rect)
  {
  }

  /** Scrolling the page moves the canvas and the pointer together, and the
      canvas-local point stays where it was. */
  lemma ShiftInvariant(c: Point, rect: Rect, dx: real, dy: real)
    ensures ToSurface(Mouse(Point(c.x + dx, c.y + dy)), Rect(rect.left + dx, rect.top + dy))
         == ToSurface(Mouse(c), rect)
  {
  }
}
