/** The full-screen image preview: zooming with the wheel and panning by
    dragging with the primary button. The translation is kept twice, in
    screen pixels (`transform`) and in the image's own unscaled pixels
    (`styleTransform`, what the image's `translate()` shows). */
module Preview {
  import opened Geometry

  const MinScale: real := 0.1
  const MaxScale: real := 10.0

  /** One wheel step: up (negative deltaY) grows the scale by a tenth of
      itself, anything else shrinks it by a tenth, and the result is kept
      within [MinScale, MaxScale]. */
  function NextScale(scale: real, deltaY: real): (r: real)
    ensures MinScale <= r <= MaxScale
    ensures deltaY < 0.0 ==> r == Min(MaxScale, Max(MinScale, scale * 1.1))
    ensures deltaY >= 0.0 ==> r == Min(MaxScale, Max(MinScale, scale * 0.9))
    // inside the range, zooming in never shrinks and zooming out never grows
    ensures MinScale <= scale <= MaxScale && deltaY < 0.0 ==> r >= scale
    ensures MinScale <= scale <= MaxScale && deltaY >= 0.0 ==> r <= scale
  {
    Min(MaxScale, Max(MinScale, scale + (if deltaY < 0.0 then 1.0 else -1.0) * 0.1 * scale))
  }

  /** The scale after a series of wheel steps. */
  function Zoom(scale: real, deltas: seq<real>): real
    decreases |deltas|
  {
    if |deltas| == 0 then scale else Zoom(NextScale(scale, deltas[0]), deltas[1..])
  }

  /** From the initial scale 1 (or any scale in range), no series of wheel
      steps leaves the range. */
  lemma {:induction false} ZoomStaysInRange(scale: real, deltas: seq<real>)
    requires MinScale <= scale <= MaxScale
    ensures MinScale <= Zoom(scale, deltas) <= MaxScale
    decreases |deltas|
  {
    if |deltas| > 0 {
      ZoomStaysInRange(NextScale(scale, deltas[0]), deltas[1..]);
    }
  }

  /** Zooming in only never makes the image smaller. */
  lemma {:induction false} ZoomInIsMonotone(scale: real, deltas: seq<real>)
    requires MinScale <= scale <= MaxScale
    requires forall i :: 0 <= i < |deltas| ==> deltas[i] < 0.0
    ensures Zoom(scale, deltas) >= scale
    decreases |deltas|
  {
    if |deltas| > 0 {
      var next := NextScale(scale, deltas[0]);
      assert forall i :: 0 <= i < |deltas[1..]| ==> deltas[1..][i] == deltas[i + 1];
      ZoomInIsMonotone(next, deltas[1..]);
    }
  }

  /** The translation after the pointer moved from `from` to `to`. */
  function Drag(t: Point, from: Point, to: Point): (r: Point)
    ensures r.x - t.x == to.x - from.x && r.y - t.y == to.y - from.y
  {
    Point(t.x + to.x - from.x, t.y + to.y - from.y)
  }

  /** The translation after a drag that started at `from` and visited
      `moves`, one mousemove each. */
  function Pan(t: Point, from: Point, moves: seq<Point>): Point
    decreases |moves|
  {
    if |moves| == 0 then t else Pan(Drag(t, from, moves[0]), moves[0], moves[1..])
  }

  /** The per-move deltas telescope: a whole drag moves the image by the
      pointer's displacement from the mousedown to the last mousemove. */
  lemma {:induction false} PanTelescopes(t: Point, from: Point, moves: seq<Point>)
    requires |moves| > 0
    ensures Pan(t, from, moves) == Drag(t, from, moves[|moves| - 1])
    decreases |moves|
  {
    if |moves| > 1 {
      var rest := moves[1..];
      PanTelescopes(Drag(t, from, moves[0]), moves[0], rest);
      assert rest[|rest| - 1] == moves[|moves| - 1];
    }
  }

  function Times(p: Point, s: real): Point { Point(p.x * s, p.y * s) }

  function Divide(p: Point, s: real): Point
    requires s != 0.0
  {
    Point(p.x / s, p.y / s)
  }

  datatype Cursor = Grab | Grabbing

  datatype MouseEventType = MouseDown | MouseUp

  class PreviewImage {
    var scale: real          // the rendered scale (React state)
    var cursor: Cursor
    var scaleRef: real       // the scale the move handler reads
    var coordinate: Point    // the last pointer position of the drag
    var transform: Point     // translation in screen pixels
    var styleTransform: Point // translation in image pixels
    var dragging: bool       // the drag target is set
    var moveListener: bool   // document mousemove -> MouseMove
    var imageTranslate: Point // the translate() on the image's style

    /** Both scales in range; the two translations agree at the scale the
        handler last saw; the image shows the image-pixel translation; the
        move listener is attached exactly during a drag. */
    ghost predicate Valid()
      reads this
    {
      MinScale <= scale <= MaxScale && MinScale <= scaleRef <= MaxScale &&
      transform == Times(styleTransform, scaleRef) &&
      imageTranslate == styleTransform &&
      moveListener == dragging
    }

    constructor ()
      ensures Valid()
      ensures scale == 1.0 && scaleRef == 1.0 && cursor == Grab
      ensures coordinate == Point(0.0, 0.0) && transform == Point(0.0, 0.0)
      ensures styleTransform == Point(0.0, 0.0) && imageTranslate == Point(0.0, 0.0)
      ensures !dragging && !moveListener
    {
      scale, scaleRef, cursor := 1.0, 1.0, Grab;
      coordinate, transform, styleTransform, imageTranslate := Point(0.0, 0.0), Point(0.0, 0.0), Point(0.0, 0.0), Point(0.0, 0.0);
      dragging, moveListener := false, false;
    }

    /** A wheel event: step the rendered scale. */
    method Wheel(deltaY: real)
      requires Valid()
      modifies this`scale
      ensures Valid()
      ensures scale == NextScale(old(scale), deltaY)
    {
      scale := Min(MaxScale, Max(MinScale, scale + (if deltaY < 0.0 then 1.0 else -1.0) * 0.1 * scale));
    }

    /** The effect that runs after the scale changed: the handler sees the new
        scale, and the screen translation is recomputed from the image-pixel
        one, which a zoom leaves as it is. */
    method ScaleEffect()
      requires Valid()
      modifies this`scaleRef, this`transform
      ensures Valid()
      ensures scaleRef == scale && transform == Times(styleTransform, scale)
      ensures old(scaleRef) == scale ==> transform == old(transform)
    {
      scaleRef := scale;
      transform := Point(styleTransform.x * scale, styleTransform.y * scale);
    }

    /** A mousemove during a drag: the translation follows the pointer, the
        image-pixel translation is the screen one over the scale, and the
        image shows it. Without a drag target the handler fails when it
        writes the image's style, after updating both translations. */
    method MouseMove(p: Point)
      requires Valid()
      modifies this`transform, this`styleTransform, this`imageTranslate, this`coordinate
      ensures transform == Drag(old(transform), old(coordinate), p)
      ensures styleTransform == Divide(transform, scaleRef)
      ensures dragging ==> imageTranslate == styleTransform && coordinate == p && Valid()
      ensures !dragging ==> imageTranslate == old(imageTranslate) && coordinate == old(coordinate)
    {
      transform := Point(transform.x + p.x - coordinate.x, transform.y + p.y - coordinate.y);
      styleTransform := Point(transform.x / scaleRef, transform.y / scaleRef);
      if !dragging {
        return;
      }
      imageTranslate := styleTransform;
      coordinate := p;
    }

    /** mousedown with the primary button alone starts a drag at p; any other
        mousedown is ignored; mouseup ends the drag. */
    method UpdateMouseState(kind: MouseEventType, buttons: int, p: Point)
      requires Valid()
      modifies this`cursor, this`coordinate, this`moveListener, this`dragging
      ensures Valid()
      ensures kind == MouseDown && buttons != 1 ==> unchanged(this)
      ensures kind == MouseDown && buttons == 1 ==>
                cursor == Grabbing && coordinate == p && moveListener && dragging
      ensures kind == MouseUp ==>
                cursor == Grab && !moveListener && !dragging && coordinate == old(coordinate)
    {
      if kind == MouseDown {
        if buttons != 1 {
          return;
        }
        cursor := Grabbing;
        coordinate := p;
        moveListener := true;
        dragging := true;
      } else {
        cursor := Grab;
        moveListener := false;
        dragging := false;
      }
    }
  }
}
