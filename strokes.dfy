/** Freehand annotation in the image editor: how pointer events grow a stroke
    for the pencil and the markerpen, and where the on-screen canvas of one
    stroke is placed (the bounding-box `reduce` of the unscaled drawing path). */
module Strokes {
  import opened Wrappers
  import opened Geometry

  /** The two pens of the toolbar. */
  datatype PenKind = Pencil | Markerpen

  /** One recorded stroke: colour, line width and the pointer offsets within
      the image, in display pixels. */
  datatype LineInfo = LineInfo(color: string, lineWidth: real, points: seq<Point>)

  /** Every stroke starts with one point and only ever gains points. */
  predicate AllStarted(strokes: seq<LineInfo>)
  {
    forall i :: 0 <= i < |strokes| ==> |strokes[i].points| >= 1
  }

  /** What a mousemove or mouseup does to the stroke being drawn with pen:
      a markerpen writes index 1 of the point list (appending it the first
      time), any other pen state appends the point. */
  function Extend(pen: Option<PenKind>, line: LineInfo, p: Point): (l: LineInfo)
    requires |line.points| >= 1
    ensures l.color == line.color && l.lineWidth == line.lineWidth
    ensures pen == Some(Markerpen) ==>
              |l.points| == (if |line.points| < 2 then 2 else |line.points|) &&
              l.points[0] == line.points[0] && l.points[1] == p &&
              (|line.points| >= 2 ==> l.points[2..] == line.points[2..])
    ensures pen != Some(Markerpen) ==> l.points == line.points + [p]
  {
    if pen == Some(Markerpen) then
      line.(points := if |line.points| == 1 then line.points + [p] else line.points[1 := p])
    else
      line.(points := line.points + [p])
  }

  /** A whole stroke: mousedown at start with the given style, then one
      mousemove/mouseup per element of moves, all with the same pen. */
  function Record(pen: Option<PenKind>, color: string, lineWidth: real, start: Point, moves: seq<Point>): (l: LineInfo)
    ensures |l.points| >= 1 && l.points[0] == start
    ensures l.color == color && l.lineWidth == lineWidth
    decreases |moves|
  {
    if |moves| == 0 then LineInfo(color, lineWidth, [start])
    else Extend(pen, Record(pen, color, lineWidth, start, moves[..|moves| - 1]), moves[|moves| - 1])
  }

  /** A pencil stroke keeps every point the pointer visited, in order. */
  lemma {:induction false} PencilStrokeKeepsEveryPoint(pen: Option<PenKind>, color: string, lineWidth: real,
                                                       start: Point, moves: seq<Point>)
    requires pen != Some(Markerpen)
    ensures Record(pen, color, lineWidth, start, moves).points == [start] + moves
    decreases |moves|
  {
    if |moves| > 0 {
      var init := moves[..|moves| - 1];
      PencilStrokeKeepsEveryPoint(pen, color, lineWidth, start, init);
      assert init + [moves[|moves| - 1]] == moves;
    }
  }

  /** A markerpen stroke is the segment from the mousedown point to the last
      pointer position: it never holds more than two points. */
  lemma {:induction false} MarkerpenStrokeIsASegment(color: string, lineWidth: real, start: Point, moves: seq<Point>)
    ensures Record(Some(Markerpen), color, lineWidth, start, moves).points
              == if |moves| == 0 then [start] else [start, moves[|moves| - 1]]
    decreases |moves|
  {
    if |moves| > 0 {
      MarkerpenStrokeIsASegment(color, lineWidth, start, moves[..|moves| - 1]);
    }
  }

  // ---------------------------------------------------------------- on-screen canvas

  /** The accumulator of `Math.min`, which starts at `Infinity`. */
  datatype Bound = Infinity | Finite(v: real)

  function MinWith(a: Bound, v: real): real
  {
    match a
    case Infinity => v
    case Finite(u) => Min(u, v)
  }

  /** [minWidth, minHeight, maxWidth, maxHeight] of the reduce. */
  datatype Extents = Extents(minX: Bound, minY: Bound, maxX: real, maxY: real)

  const NoExtents: Extents := Extents(Infinity, Infinity, 0.0, 0.0)

  function ReduceStep(a: Extents, p: Point): Extents
  {
    Extents(Finite(MinWith(a.minX, p.x)), Finite(MinWith(a.minY, p.y)), Max(a.maxX, p.x), Max(a.maxY, p.y))
  }

  /** The reduce over a point list from [Infinity, Infinity, 0, 0]: the least
      coordinates of the points and the greatest ones, the latter never below 0. */
  function Bounds(ps: seq<Point>): (b: Extents)
    ensures |ps| == 0 ==> b == NoExtents
    ensures |ps| > 0 ==> b.minX.Finite? && b.minY.Finite?
    ensures 0.0 <= b.maxX && 0.0 <= b.maxY
    ensures forall i :: 0 <= i < |ps| ==>
              b.minX.Finite? && b.minY.Finite? &&
              b.minX.v <= ps[i].x <= b.maxX && b.minY.v <= ps[i].y <= b.maxY
    ensures |ps| > 0 ==> exists i :: 0 <= i < |ps| && b.minX.v == ps[i].x
    ensures |ps| > 0 ==> exists i :: 0 <= i < |ps| && b.minY.v == ps[i].y
    ensures b.maxX == 0.0 || exists i :: 0 <= i < |ps| && b.maxX == ps[i].x
    ensures b.maxY == 0.0 || exists i :: 0 <= i < |ps| && b.maxY == ps[i].y
    decreases |ps|
  {
    if |ps| == 0 then NoExtents
    else
      var init := ps[..|ps| - 1];
      var b := Bounds(init);
      assert forall i :: 0 <= i < |init| ==> init[i] == ps[i];
      ReduceStep(b, ps[|ps| - 1])
  }

  /** The on-screen canvas of one stroke: its size, its position within the
      image, and the points as drawn on it. */
  datatype Placement = Placement(width: real, height: real, left: real, top: real, points: seq<Point>)

  /** Unscaled drawing of a stroke on its own canvas: the canvas spans the
      reduce's extents plus a line width, and is shifted so that each point is
      drawn back at the image offset where it was recorded. */
  function OnScreen(line: LineInfo): (pl: Placement)
    requires |line.points| >= 1
    ensures |pl.points| == |line.points|
    ensures forall i :: 0 <= i < |line.points| ==>
              pl.left + pl.points[i].x == line.points[i].x && pl.top + pl.points[i].y == line.points[i].y
    ensures forall i :: 0 <= i < |line.points| ==>
              line.lineWidth / 2.0 <= pl.points[i].x <= pl.width - line.lineWidth / 2.0 &&
              line.lineWidth / 2.0 <= pl.points[i].y <= pl.height - line.lineWidth / 2.0
  {
    var b := Bounds(line.points);
    var half := line.lineWidth / 2.0;
    var minX := b.minX.v;
    var minY := b.minY.v;
    Placement(b.maxX - minX + line.lineWidth, b.maxY - minY + line.lineWidth, minX - half, minY - half,
              seq(|line.points|, i requires 0 <= i < |line.points| =>
                    Point(line.points[i].x - minX + half, line.points[i].y - minY + half)))
  }
}
