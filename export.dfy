/** Save-time geometry of the image editor: the per-axis scale from display
    pixels to the original image, the source rectangle copied onto the export
    canvas, and where each stroke is drawn on that canvas. The rasterisation
    itself (drawImage, stroke, toDataURL) is not modelled, only the numbers
    handed to it. */
module Export {
  import opened Wrappers
  import opened Geometry
  import opened Crop
  import opened Strokes

  /** original size / displayed size, per axis. */
  datatype Scale = Scale(w: real, h: real)

  function ScaleOf(displayW: real, displayH: real, primitiveW: real, primitiveH: real): (s: Scale)
    requires displayW != 0.0 && displayH != 0.0
    ensures s.w * displayW == primitiveW && s.h * displayH == primitiveH
  {
    Scale(primitiveW / displayW, primitiveH / displayH)
  }

  /** The crop region at save time: its style and its rendered size. */
  datatype Region = Region(cut: CutInfo, width: real, height: real)

  /** `drawImage(original, x, y, width, height, 0, 0, width, height)` onto a
      canvas of width x height: the part of the original that is exported. */
  datatype Source = Source(x: real, y: real, width: real, height: real)

  /** The source rectangle: the region scaled to original pixels when
      cropping, otherwise the whole displayed image scaled. */
  function SourceOf(s: Scale, region: Option<Region>, displayW: real, displayH: real): (src: Source)
    ensures region.None? ==> src.x == 0.0 && src.y == 0.0 &&
                             src.width == displayW * s.w && src.height == displayH * s.h
    ensures region.Some? ==> src.x == region.value.cut.left * s.w && src.y == region.value.cut.top * s.h &&
                             src.width == region.value.width * s.w && src.height == region.value.height * s.h
  {
    match region
    case None => Source(0.0, 0.0, displayW * s.w, displayH * s.h)
    case Some(r) => Source(r.cut.left * s.w, r.cut.top * s.h, r.width * s.w, r.height * s.h)
  }

  /** A stroke as drawn on the export canvas: line width and colour are those
      recorded (the width is not scaled), the points are canvas coordinates. */
  datatype DrawnLine = DrawnLine(color: string, lineWidth: real, points: seq<Point>)

  /** A stroke's points scaled to original pixels and shifted by -origin. */
  function Place(line: LineInfo, s: Scale, origin: Point): (d: DrawnLine)
    ensures d.color == line.color && d.lineWidth == line.lineWidth
    ensures |d.points| == |line.points|
    ensures forall j :: 0 <= j < |line.points| ==>
              d.points[j].x + origin.x == line.points[j].x * s.w &&
              d.points[j].y + origin.y == line.points[j].y * s.h
  {
    DrawnLine(line.color, line.lineWidth,
              seq(|line.points|, j requires 0 <= j < |line.points| =>
                    Point(line.points[j].x * s.w - origin.x, line.points[j].y * s.h - origin.y)))
  }

  function PlaceAll(strokes: seq<LineInfo>, s: Scale, origin: Point): (ds: seq<DrawnLine>)
    ensures |ds| == |strokes|
    ensures forall i :: 0 <= i < |strokes| ==> ds[i] == Place(strokes[i], s, origin)
  {
    seq(|strokes|, i requires 0 <= i < |strokes| => Place(strokes[i], s, origin))
  }

  /** All the numbers one export hands to the canvas: the canvas is
      source.width x source.height, the original is copied from source, and
      the strokes are drawn in list order on top. */
  datatype Plan = Plan(scale: Scale, source: Source, lines: seq<DrawnLine>)

  /** The export as the editor writes it: crop first, then draw every stroke
      at point x scale, without subtracting the crop origin. */
  function PlanAsWritten(displayW: real, displayH: real, primitiveW: real, primitiveH: real,
                         region: Option<Region>, strokes: seq<LineInfo>): (p: Plan)
    requires displayW != 0.0 && displayH != 0.0
    ensures p.scale == ScaleOf(displayW, displayH, primitiveW, primitiveH)
    ensures p.source == SourceOf(p.scale, region, displayW, displayH)
    ensures p.lines == PlaceAll(strokes, p.scale, Point(0.0, 0.0))
  {
    var s := ScaleOf(displayW, displayH, primitiveW, primitiveH);
    Plan(s, SourceOf(s, region, displayW, displayH), PlaceAll(strokes, s, Point(0.0, 0.0)))
  }

  /** The export with each stroke anchored to the image content under it:
      the canvas starts at the source's corner, so the strokes are shifted by
      it. Without a crop this is the same plan as the one written. */
  function ExportPlan(displayW: real, displayH: real, primitiveW: real, primitiveH: real,
                      region: Option<Region>, strokes: seq<LineInfo>): (p: Plan)
    requires displayW != 0.0 && displayH != 0.0
    ensures p.scale.w * displayW == primitiveW && p.scale.h * displayH == primitiveH
    // without a crop the export keeps the original's size
    ensures region.None? ==> p.source == Source(0.0, 0.0, primitiveW, primitiveH)
    // with a crop it copies the region, scaled per axis
    ensures region.Some? ==>
              p.source.x * displayW == region.value.cut.left * primitiveW &&
              p.source.y * displayH == region.value.cut.top * primitiveH &&
              p.source.width * displayW == region.value.width * primitiveW &&
              p.source.height * displayH == region.value.height * primitiveH
    // every stroke keeps its style, and each point lands on the canvas pixel
    // that shows the original pixel under the point as it was drawn
    ensures |p.lines| == |strokes|
    ensures forall i :: 0 <= i < |strokes| ==>
              p.lines[i].color == strokes[i].color && p.lines[i].lineWidth == strokes[i].lineWidth &&
              |p.lines[i].points| == |strokes[i].points|
    ensures forall i, j :: 0 <= i < |strokes| && 0 <= j < |strokes[i].points| ==>
              p.source.x + p.lines[i].points[j].x == strokes[i].points[j].x * p.scale.w &&
              p.source.y + p.lines[i].points[j].y == strokes[i].points[j].y * p.scale.h
  {
    var s := ScaleOf(displayW, displayH, primitiveW, primitiveH);
    var src := SourceOf(s, region, displayW, displayH);
    var ds := PlaceAll(strokes, s, Point(src.x, src.y));
    assert forall i :: 0 <= i < |strokes| ==> ds[i] == Place(strokes[i], s, Point(src.x, src.y));
    Plan(s, src, ds)
  }

  /** Without a crop the written export and the anchored one coincide. */
  lemma NoCropPlansAgree(displayW: real, displayH: real, primitiveW: real, primitiveH: real, strokes: seq<LineInfo>)
    requires displayW != 0.0 && displayH != 0.0
    ensures PlanAsWritten(displayW, displayH, primitiveW, primitiveH, None, strokes)
            == ExportPlan(displayW, displayH, primitiveW, primitiveH, None, strokes)
  {
  }

  /** With a crop at (10, 10) of an image shown at its own size, a stroke point
      drawn at (20, 20) ends up at (20, 20) of the cropped canvas as written,
      which shows the original pixel (30, 30); anchored, it goes to (10, 10). */
  lemma CroppedStrokeIsOffset()
    ensures var strokes := [LineInfo("#FF0000", 2.0, [Point(20.0, 20.0)])];
            var region := Some(Region(CutInfo(10.0, 10.0, Px(50.0), Px(50.0)), 50.0, 50.0));
            var written := PlanAsWritten(100.0, 100.0, 100.0, 100.0, region, strokes);
            var anchored := ExportPlan(100.0, 100.0, 100.0, 100.0, region, strokes);
            written.lines[0].points[0] == Point(20.0, 20.0) &&
            written.source.x + written.lines[0].points[0].x != 20.0 * written.scale.w &&
            anchored.lines[0].points[0] == Point(10.0, 10.0)
  {
    var strokes := [LineInfo("#FF0000", 2.0, [Point(20.0, 20.0)])];
    var region := Some(Region(CutInfo(10.0, 10.0, Px(50.0), Px(50.0)), 50.0, 50.0));
    var written := PlanAsWritten(100.0, 100.0, 100.0, 100.0, region, strokes);
    var anchored := ExportPlan(100.0, 100.0, 100.0, 100.0, region, strokes);
    assert written.scale == Scale(1.0, 1.0);
    assert written.lines[0] == Place(strokes[0], Scale(1.0, 1.0), Point(0.0, 0.0));
    assert anchored.source.x == 10.0 && anchored.source.y == 10.0;
  }

  /** A 100 x 100 original shown at 50 x 50: a stroke from (10, 10) to
      (30, 30) is drawn from (20, 20) to (60, 60) on a 100 x 100 canvas. */
  lemma DoubleScaleExample()
    ensures var p := ExportPlan(50.0, 50.0, 100.0, 100.0, None,
                                [LineInfo("#FF0000", 2.0, [Point(10.0, 10.0), Point(30.0, 30.0)])]);
            p.source == Source(0.0, 0.0, 100.0, 100.0) &&
            p.lines[0].points == [Point(20.0, 20.0), Point(60.0, 60.0)]
  {
    var p := ExportPlan(50.0, 50.0, 100.0, 100.0, None,
                        [LineInfo("#FF0000", 2.0, [Point(10.0, 10.0), Point(30.0, 30.0)])]);
    assert p.scale == Scale(2.0, 2.0);
  }
}
