/** The crop region of the image editor: which of the eight handles the pointer
    addresses, one resize step with its flip table, the four dimming masks,
    moving the region, and rescaling it when the displayed image changes size.
    Coordinates are exact reals; the pixel strings of the style become numbers. */
module Crop {
  import opened Wrappers
  import opened Geometry

  /** The eight resize handles, in the order of the editor's `Position` enum. */
  datatype Position = Left | LeftTop | Top | RightTop | Right | RightBottom | Bottom | LeftBottom

  /** The cursors the hover test chooses between. */
  datatype Cursor = Auto | NwseResize | NeswResize | EwResize | NsResize

  /** A width or height of the region: the initial symbolic `100%`, or pixels. */
  datatype Extent = Full | Px(px: real)

  /** The region's style: left and top in pixels relative to the parent box. */
  datatype CutInfo = CutInfo(left: real, top: real, width: Extent, height: Extent)

  const Border: real := 1.0
  const MinSize: real := 3.0 * Border

  /** The style the region starts from and is reset to. */
  const InitialCut: CutInfo := CutInfo(0.0, 0.0, Full, Full)

  predicate OwnsLeft(h: Position) { h == Left || h == LeftTop || h == LeftBottom }

  predicate OwnsRight(h: Position) { h == Right || h == RightTop || h == RightBottom }

  predicate OwnsTop(h: Position) { h == Top || h == LeftTop || h == RightTop }

  predicate OwnsBottom(h: Position) { h == Bottom || h == LeftBottom || h == RightBottom }

  predicate MovesX(h: Position) { OwnsLeft(h) || OwnsRight(h) }

  predicate MovesY(h: Position) { OwnsTop(h) || OwnsBottom(h) }

  /** Pixels of an extent, with `100%` resolved to the given full size. */
  function Resolve(e: Extent, full: real): real
  {
    match e
    case Full => full
    case Px(v) => v
  }

  // ---------------------------------------------------------------- hover

  /** Where a coordinate lies with respect to an interval of the region box. */
  datatype Band = Before | Within | After

  function BandOf(v: real, lo: real, hi: real): Band
  {
    if v < lo then Before else if v > hi then After else Within
  }

  /** The geometric reading of the hover test: the nine cells around the box,
      corner cells naming corner handles, the centre naming none. */
  function HandleAt(bandX: Band, bandY: Band): Option<Position>
  {
    match (bandX, bandY)
    case (Before, Before) => Some(LeftTop)
    case (After, Before) => Some(RightTop)
    case (Before, After) => Some(LeftBottom)
    case (After, After) => Some(RightBottom)
    case (Before, Within) => Some(Left)
    case (After, Within) => Some(Right)
    case (Within, Before) => Some(Top)
    case (Within, After) => Some(Bottom)
    case (Within, Within) => None
  }

  /** The zone test of the hover handler for pointer (x, y) and the region's
      client rectangle r; None means the pointer is inside the box. */
  function Hover(x: real, y: real, r: Rect): (p: Option<Position>)
    ensures p.None? <==> (r.left <= x <= r.right && r.top <= y <= r.bottom)
    ensures r.WellFormed() ==> p == HandleAt(BandOf(x, r.left, r.right), BandOf(y, r.top, r.bottom))
  {
    if (x < r.left && y < r.top) || (x > r.right && y > r.bottom) then
      Some(if x < r.left && y < r.top then LeftTop else RightBottom)
    else if (x > r.right && y < r.top) || (x < r.left && y > r.bottom) then
      Some(if x > r.right && y < r.top then RightTop else LeftBottom)
    else if x < r.left || x > r.right then
      Some(if x < r.left then Left else Right)
    else if y < r.top || y > r.bottom then
      Some(if y < r.top then Top else Bottom)
    else
      None
  }

  /** The resize cursor shown for a handle. */
  function CursorOf(p: Position): Cursor
  {
    match p
    case LeftTop | RightBottom => NwseResize
    case RightTop | LeftBottom => NeswResize
    case Left | Right => EwResize
    case Top | Bottom => NsResize
  }

  // ---------------------------------------------------------------- flip table

  /** The handle on the other side of the region horizontally. */
  function MirrorX(h: Position): (m: Position)
    ensures OwnsLeft(m) == OwnsRight(h) && OwnsRight(m) == OwnsLeft(h)
    ensures OwnsTop(m) == OwnsTop(h) && OwnsBottom(m) == OwnsBottom(h)
  {
    match h
    case Left => Right
    case LeftTop => RightTop
    case RightTop => LeftTop
    case Right => Left
    case RightBottom => LeftBottom
    case LeftBottom => RightBottom
    case Top => Top
    case Bottom => Bottom
  }

  /** The handle on the other side of the region vertically. */
  function MirrorY(h: Position): (m: Position)
    ensures OwnsTop(m) == OwnsBottom(h) && OwnsBottom(m) == OwnsTop(h)
    ensures OwnsLeft(m) == OwnsLeft(h) && OwnsRight(m) == OwnsRight(h)
  {
    match h
    case Top => Bottom
    case LeftTop => LeftBottom
    case LeftBottom => LeftTop
    case Bottom => Top
    case RightTop => RightBottom
    case RightBottom => RightTop
    case Left => Left
    case Right => Right
  }

  /** The transition table (handle, collapsed axes) -> handle: each collapsed
      axis swaps the side the handle owns on that axis and nothing else. */
  function Flip(h: Position, widthCollapsed: bool, heightCollapsed: bool): (r: Position)
    ensures OwnsLeft(r) == (if widthCollapsed then OwnsRight(h) else OwnsLeft(h))
    ensures OwnsRight(r) == (if widthCollapsed then OwnsLeft(h) else OwnsRight(h))
    ensures OwnsTop(r) == (if heightCollapsed then OwnsBottom(h) else OwnsTop(h))
    ensures OwnsBottom(r) == (if heightCollapsed then OwnsTop(h) else OwnsBottom(h))
  {
    var h1 := if widthCollapsed then MirrorX(h) else h;
    if heightCollapsed then MirrorY(h1) else h1
  }

  /** A handle is determined by the sides it owns, so the four equations of
      Flip's contract pin its result down. */
  lemma PositionBySides(a: Position, b: Position)
    requires OwnsLeft(a) == OwnsLeft(b) && OwnsRight(a) == OwnsRight(b)
    requires OwnsTop(a) == OwnsTop(b) && OwnsBottom(a) == OwnsBottom(b)
    ensures a == b
  {
  }

  // ---------------------------------------------------------------- resize step

  /** The pointer coordinate v on one axis after clamping: never before the
      parent's low edge; a handle owning the low side stays MinSize short of the
      parent's high edge, one owning the high side stops at it. */
  function Clamp(ownsLow: bool, ownsHigh: bool, v: real, parentLow: real, parentHigh: real): real
  {
    var v1 := Max(v, parentLow);
    if ownsLow then Min(v1, parentHigh - MinSize)
    else if ownsHigh then Min(v1, parentHigh)
    else v1
  }

  /** The new width or height is at most MinSize. */
  predicate Collapsed(e: Extent) { e.Px? && e.px <= MinSize }

  /** One axis of the region's style: left and width, or top and height. */
  datatype Span = Span(start: real, extent: Extent)

  /** One axis of a resize step. A handle owning the low side (left or top)
      moves that side to the clamped pointer and keeps the high side; one owning
      the high side moves only the extent. parentLow/parentHigh and
      rectLow/rectHigh are the client edges of the parent and of the region. */
  function ResizeAxis(ownsLow: bool, ownsHigh: bool, v: real, parentLow: real, parentHigh: real,
                      rectLow: real, rectHigh: real, span: Span): (a: Span)
    requires !(ownsLow && ownsHigh)
    ensures ownsLow || ownsHigh ==> a.extent.Px? && a.extent.px >= 0.0
    ensures !ownsLow && !ownsHigh ==> a == span
    ensures ownsHigh ==> a.start == span.start
    ensures ownsLow && parentLow <= v <= parentHigh - MinSize ==> a.start == v - parentLow
    ensures ownsLow && parentHigh - parentLow >= MinSize ==>
              0.0 <= a.start <= parentHigh - parentLow - MinSize
    ensures ownsLow && v <= rectHigh && parentLow <= rectHigh ==>
              parentLow + a.start + a.extent.px == rectHigh
    ensures ownsLow ==> parentLow + a.start + a.extent.px == Max(rectHigh, parentLow + a.start)
    ensures ownsHigh ==> rectLow + a.extent.px <= Max(parentHigh, rectLow)
  {
    var c := Clamp(ownsLow, ownsHigh, v, parentLow, parentHigh);
    if ownsLow then Span(c - parentLow, Px(Max(rectHigh - c, 0.0)))
    else if ownsHigh then Span(span.start, Px(Max(c - rectLow, 0.0)))
    else span
  }

  datatype Step = Step(cut: CutInfo, handle: Position)

  /** One pointer move while handle h is held: the sides h owns follow the
      clamped pointer (x, y), the others stay, and a collapsed axis flips the
      handle. parent and rect are the client rectangles of the parent box and of
      the region before the move. */
  function Resize(h: Position, x: real, y: real, parent: Rect, rect: Rect, cut: CutInfo): (s: Step)
    // extents never go negative; untouched axes are unchanged
    ensures MovesX(h) ==> s.cut.width.Px? && s.cut.width.px >= 0.0
    ensures MovesY(h) ==> s.cut.height.Px? && s.cut.height.px >= 0.0
    ensures !MovesX(h) ==> s.cut.left == cut.left && s.cut.width == cut.width
    ensures !MovesY(h) ==> s.cut.top == cut.top && s.cut.height == cut.height
    // moving the right (bottom) side keeps the left (top) one
    ensures OwnsRight(h) ==> s.cut.left == cut.left
    ensures OwnsBottom(h) ==> s.cut.top == cut.top
    // the left (top) side follows the pointer inside the allowed range ...
    ensures OwnsLeft(h) && parent.left <= x <= parent.right - MinSize ==> s.cut.left == x - parent.left
    ensures OwnsTop(h) && parent.top <= y <= parent.bottom - MinSize ==> s.cut.top == y - parent.top
    // ... and never leaves it
    ensures OwnsLeft(h) && parent.Width() >= MinSize ==> 0.0 <= s.cut.left <= parent.Width() - MinSize
    ensures OwnsTop(h) && parent.Height() >= MinSize ==> 0.0 <= s.cut.top <= parent.Height() - MinSize
    // the opposite side stays where it was unless the pointer crossed it
    ensures OwnsLeft(h) && x <= rect.right && parent.left <= rect.right ==>
              parent.left + s.cut.left + s.cut.width.px == rect.right
    ensures OwnsTop(h) && y <= rect.bottom && parent.top <= rect.bottom ==>
              parent.top + s.cut.top + s.cut.height.px == rect.bottom
    // a moved right (bottom) side never passes the parent's
    ensures OwnsRight(h) ==> rect.left + s.cut.width.px <= Max(parent.right, rect.left)
    ensures OwnsBottom(h) ==> rect.top + s.cut.height.px <= Max(parent.bottom, rect.top)
    // the flip rule
    ensures s.handle == Flip(h, MovesX(h) && Collapsed(s.cut.width), MovesY(h) && Collapsed(s.cut.height))
  {
    var ax := ResizeAxis(OwnsLeft(h), OwnsRight(h), x, parent.left, parent.right,
                         rect.left, rect.right, Span(cut.left, cut.width));
    var ay := ResizeAxis(OwnsTop(h), OwnsBottom(h), y, parent.top, parent.bottom,
                         rect.top, rect.bottom, Span(cut.top, cut.height));
    var c := CutInfo(ax.start, ay.start, ax.extent, ay.extent);
    Step(c, Flip(h, MovesX(h) && Collapsed(c.width), MovesY(h) && Collapsed(c.height)))
  }

  /** k resize handlers run one after the other on the same pointer position
      and the same region rectangle, each starting from the handle and style the
      one before left. */
  function ResizeSteps(k: nat, h: Position, x: real, y: real, parent: Rect, rect: Rect, cut: CutInfo): Step
    decreases k
  {
    if k == 0 then Step(cut, h)
    else
      var s := ResizeSteps(k - 1, h, x, y, parent, rect, cut);
      Resize(s.handle, x, y, parent, rect, s.cut)
  }

  /** A second step with the same handle, pointer and rectangle changes
      nothing: each moved side is computed from the pointer and the rectangle,
      not from the style it replaces. */
  lemma ResizeIsIdempotent(h: Position, x: real, y: real, parent: Rect, rect: Rect, cut: CutInfo)
    ensures var s := Resize(h, x, y, parent, rect, cut);
            s.handle == h ==> Resize(h, x, y, parent, rect, s.cut) == s
  {
  }

  /** While the handle does not flip, running the step several times is
      running it once. */
  lemma {:induction false} RepeatedStepIsOneStep(k: nat, h: Position, x: real, y: real, parent: Rect, rect: Rect,
                                                 cut: CutInfo)
    requires k >= 1
    requires Resize(h, x, y, parent, rect, cut).handle == h
    ensures ResizeSteps(k, h, x, y, parent, rect, cut) == Resize(h, x, y, parent, rect, cut)
    decreases k
  {
    if k > 1 {
      RepeatedStepIsOneStep(k - 1, h, x, y, parent, rect, cut);
      ResizeIsIdempotent(h, x, y, parent, rect, cut);
    }
  }

  /** Once the handle flips, a second step does not agree with the first: the
      bottom-right handle of a region filling a 100 x 100 parent, dragged to
      (2, 2), collapses the region to 2 x 2 and flips to the top-left handle;
      a second step then drags that handle to (2, 2) and leaves a 98 x 98
      region. */
  lemma DoubleStepAfterFlip()
    ensures var box := Rect(0.0, 0.0, 100.0, 100.0);
            Resize(RightBottom, 2.0, 2.0, box, box, InitialCut) == Step(CutInfo(0.0, 0.0, Px(2.0), Px(2.0)), LeftTop) &&
            ResizeSteps(2, RightBottom, 2.0, 2.0, box, box, InitialCut)
              == Step(CutInfo(2.0, 2.0, Px(98.0), Px(98.0)), LeftTop)
  {
    var box := Rect(0.0, 0.0, 100.0, 100.0);
    var first := Resize(RightBottom, 2.0, 2.0, box, box, InitialCut);
    PositionBySides(first.handle, LeftTop);
    assert ResizeSteps(1, RightBottom, 2.0, 2.0, box, box, InitialCut) == first;
    var second := Resize(LeftTop, 2.0, 2.0, box, box, first.cut);
    PositionBySides(second.handle, LeftTop);
  }

  /** The box the region's style places it in, in client coordinates. */
  function Box(parent: Rect, cut: CutInfo): Rect
  {
    Rect(parent.left + cut.left, parent.top + cut.top,
         parent.left + cut.left + Resolve(cut.width, parent.Width()),
         parent.top + cut.top + Resolve(cut.height, parent.Height()))
  }

  /** The region lies within the parent box, with non-negative extents. */
  predicate InsideParent(parent: Rect, cut: CutInfo)
  {
    var w := Resolve(cut.width, parent.Width());
    var h := Resolve(cut.height, parent.Height());
    0.0 <= cut.left && 0.0 <= w && cut.left + w <= parent.Width() &&
    0.0 <= cut.top && 0.0 <= h && cut.top + h <= parent.Height()
  }

  /** Dragging any handle anywhere keeps a region that was inside the parent
      inside it, when the region's rectangle is where its style puts it. */
  lemma ResizeStaysInside(h: Position, x: real, y: real, parent: Rect, cut: CutInfo)
    requires parent.Width() >= MinSize && parent.Height() >= MinSize
    requires InsideParent(parent, cut)
    ensures InsideParent(parent, Resize(h, x, y, parent, Box(parent, cut), cut).cut)
  {
    var r := Box(parent, cut);
    AxisStaysInside(OwnsLeft(h), OwnsRight(h), x, parent.left, parent.right, Span(cut.left, cut.width));
    AxisStaysInside(OwnsTop(h), OwnsBottom(h), y, parent.top, parent.bottom, Span(cut.top, cut.height));
  }

  predicate SpanInside(span: Span, parentLow: real, parentHigh: real)
  {
    var e := Resolve(span.extent, parentHigh - parentLow);
    0.0 <= span.start && 0.0 <= e && span.start + e <= parentHigh - parentLow
  }

  lemma AxisStaysInside(ownsLow: bool, ownsHigh: bool, v: real, parentLow: real, parentHigh: real, span: Span)
    requires !(ownsLow && ownsHigh)
    requires parentHigh - parentLow >= MinSize
    requires SpanInside(span, parentLow, parentHigh)
    ensures var e := Resolve(span.extent, parentHigh - parentLow);
            SpanInside(ResizeAxis(ownsLow, ownsHigh, v, parentLow, parentHigh,
                                  parentLow + span.start, parentLow + span.start + e, span),
                       parentLow, parentHigh)
  {
  }

  /** Dragging the bottom-right handle up and to the left past the opposite
      corner (within MinSize of it) hands the drag over to the top-left handle. */
  lemma RightBottomPastLeftTopFlips(x: real, y: real, parent: Rect, rect: Rect, cut: CutInfo)
    requires parent.left <= rect.left && parent.top <= rect.top
    requires x <= rect.left + MinSize && y <= rect.top + MinSize
    ensures Resize(RightBottom, x, y, parent, rect, cut).handle == LeftTop
  {
    var s := Resize(RightBottom, x, y, parent, rect, cut);
    PositionBySides(s.handle, LeftTop);
  }

  // ---------------------------------------------------------------- masks

  /** The four dimming rectangles: the left and right masks sit beside the
      region, the top and bottom ones span the parent above and below it. */
  datatype Masks = Masks(leftTop: real, leftWidth: real, leftHeight: real,
                         topHeight: real,
                         rightTop: real, rightWidth: real, rightHeight: real,
                         bottomHeight: real)

  /** The mask styles for the region's style cut, its rendered size and the
      parent's size; a `100%` extent is read from the rendered size. */
  function MaskStyle(cut: CutInfo, regionW: real, regionH: real, parentW: real, parentH: real): (m: Masks)
    ensures m.leftWidth + Resolve(cut.width, regionW) + m.rightWidth == parentW
    ensures m.topHeight + Resolve(cut.height, regionH) + m.bottomHeight == parentH
    ensures m.leftTop == cut.top && m.rightTop == cut.top && m.topHeight == cut.top
    ensures m.leftHeight == Resolve(cut.height, regionH) && m.rightHeight == Resolve(cut.height, regionH)
  {
    var w := Resolve(cut.width, regionW);
    var h := Resolve(cut.height, regionH);
    Masks(cut.top, cut.left, h, cut.top, cut.top, parentW - w - cut.left, h, parentH - h - cut.top)
  }

  function Indicator(b: bool): nat { if b then 1 else 0 }

  predicate InSpan(v: real, lo: real, len: real) { lo <= v < lo + len }

  /** How many of the five rectangles (region, top, bottom, left, right mask)
      contain the parent-relative point (x, y), with the masks laid out as the
      stylesheet places them: top and bottom full width at the parent's top and
      bottom edges, left and right at the parent's left and right edges. */
  function Coverage(cut: CutInfo, regionW: real, regionH: real, parentW: real, parentH: real,
                    x: real, y: real): nat
  {
    var m := MaskStyle(cut, regionW, regionH, parentW, parentH);
    var w := Resolve(cut.width, regionW);
    var h := Resolve(cut.height, regionH);
    Indicator(InSpan(x, cut.left, w) && InSpan(y, cut.top, h)) +
    Indicator(InSpan(x, 0.0, parentW) && InSpan(y, 0.0, m.topHeight)) +
    Indicator(InSpan(x, 0.0, parentW) && InSpan(y, parentH - m.bottomHeight, m.bottomHeight)) +
    Indicator(InSpan(x, 0.0, m.leftWidth) && InSpan(y, m.leftTop, m.leftHeight)) +
    Indicator(InSpan(x, parentW - m.rightWidth, m.rightWidth) && InSpan(y, m.rightTop, m.rightHeight))
  }

  /** The region and the four masks tile the parent: every point of the parent
      is covered exactly once, when the region lies inside the parent. */
  lemma MasksTileParent(cut: CutInfo, regionW: real, regionH: real, parentW: real, parentH: real,
                        x: real, y: real)
    requires 0.0 <= cut.left && 0.0 <= Resolve(cut.width, regionW)
    requires cut.left + Resolve(cut.width, regionW) <= parentW
    requires 0.0 <= cut.top && 0.0 <= Resolve(cut.height, regionH)
    requires cut.top + Resolve(cut.height, regionH) <= parentH
    requires 0.0 <= x < parentW && 0.0 <= y < parentH
    ensures Coverage(cut, regionW, regionH, parentW, parentH, x, y) == 1
  {
  }

  // ---------------------------------------------------------------- move

  /** Moving the region by the pointer delta from `from` to `to`, clamped to
      the parent; regionW/regionH is the region's rendered size. */
  function Move(cut: CutInfo, from: Point, to: Point, parentW: real, parentH: real,
                regionW: real, regionH: real): (c: CutInfo)
    ensures c.width == cut.width && c.height == cut.height
    ensures c.left <= parentW - regionW && c.top <= parentH - regionH
    ensures regionW <= parentW ==> 0.0 <= c.left
    ensures regionH <= parentH ==> 0.0 <= c.top
    ensures 0.0 <= cut.left + (to.x - from.x) <= parentW - regionW ==> c.left == cut.left + (to.x - from.x)
    ensures 0.0 <= cut.top + (to.y - from.y) <= parentH - regionH ==> c.top == cut.top + (to.y - from.y)
  {
    cut.(left := Min(Max(cut.left + (to.x - from.x), 0.0), parentW - regionW),
         top := Min(Max(cut.top + (to.y - from.y), 0.0), parentH - regionH))
  }

  /** A whole move drag: each pointer position is measured against the one
      before it, starting from the mousedown position `from`. */
  function DragRegion(cut: CutInfo, from: Point, moves: seq<Point>, parentW: real, parentH: real,
                      regionW: real, regionH: real): CutInfo
    decreases |moves|
  {
    if |moves| == 0 then cut
    else DragRegion(Move(cut, from, moves[0], parentW, parentH, regionW, regionH), moves[0], moves[1..],
                    parentW, parentH, regionW, regionH)
  }

  /** While no clamp applies, a drag moves the region by exactly the distance
      from the mousedown point to the last pointer position: the step deltas
      telescope. */
  lemma {:induction false} DragTelescopes(cut: CutInfo, from: Point, moves: seq<Point>,
                                          parentW: real, parentH: real, regionW: real, regionH: real)
    requires |moves| > 0
    requires forall k :: 0 <= k < |moves| ==>
               0.0 <= cut.left + (moves[k].x - from.x) <= parentW - regionW &&
               0.0 <= cut.top + (moves[k].y - from.y) <= parentH - regionH
    ensures DragRegion(cut, from, moves, parentW, parentH, regionW, regionH).left
              == cut.left + (moves[|moves| - 1].x - from.x)
    ensures DragRegion(cut, from, moves, parentW, parentH, regionW, regionH).top
              == cut.top + (moves[|moves| - 1].y - from.y)
    decreases |moves|
  {
    var c1 := Move(cut, from, moves[0], parentW, parentH, regionW, regionH);
    if |moves| > 1 {
      var rest := moves[1..];
      forall k | 0 <= k < |rest|
        ensures 0.0 <= c1.left + (rest[k].x - moves[0].x) <= parentW - regionW
        ensures 0.0 <= c1.top + (rest[k].y - moves[0].y) <= parentH - regionH
      {
        assert rest[k] == moves[k + 1];
      }
      DragTelescopes(c1, moves[0], rest, parentW, parentH, regionW, regionH);
    }
  }

  // ---------------------------------------------------------------- resize sync

  function ScaleExtent(e: Extent, newSize: real, oldSize: real): Extent
    requires oldSize != 0.0
  {
    match e
    case Full => Full
    case Px(v) => Px(v * newSize / oldSize)
  }

  /** The region after the displayed image went from oldW x oldH to newW x newH:
      positions and pixel extents scale per axis, `100%` stays symbolic. */
  function Rescale(cut: CutInfo, oldW: real, oldH: real, newW: real, newH: real): (c: CutInfo)
    requires oldW != 0.0 && oldH != 0.0
    ensures c.left * oldW == cut.left * newW && c.top * oldH == cut.top * newH
    ensures c.width.Full? == cut.width.Full? && c.height.Full? == cut.height.Full?
    ensures c.width.Px? ==> c.width.px * oldW == cut.width.px * newW
    ensures c.height.Px? ==> c.height.px * oldH == cut.height.px * newH
  {
    CutInfo(cut.left * newW / oldW, cut.top * newH / oldH,
            ScaleExtent(cut.width, newW, oldW), ScaleExtent(cut.height, newH, oldH))
  }

  /** The region's position relative to the displayed image (left / width of
      the image and so on) is the same before and after a resize. */
  lemma RescaleKeepsRelativeGeometry(cut: CutInfo, oldW: real, oldH: real, newW: real, newH: real)
    requires oldW > 0.0 && oldH > 0.0 && newW > 0.0 && newH > 0.0
    ensures Rescale(cut, oldW, oldH, newW, newH).left / newW == cut.left / oldW
    ensures Rescale(cut, oldW, oldH, newW, newH).top / newH == cut.top / oldH
    ensures cut.width.Px? ==> Rescale(cut, oldW, oldH, newW, newH).width.px / newW == cut.width.px / oldW
    ensures cut.height.Px? ==> Rescale(cut, oldW, oldH, newW, newH).height.px / newH == cut.height.px / oldH
  {
    var c := Rescale(cut, oldW, oldH, newW, newH);
    DivideCross(c.left, newW, cut.left, oldW);
    DivideCross(c.top, newH, cut.top, oldH);
    if cut.width.Px? { DivideCross(c.width.px, newW, cut.width.px, oldW); }
    if cut.height.Px? { DivideCross(c.height.px, newH, cut.height.px, oldH); }
  }

  lemma DivideCross(a: real, b: real, c: real, d: real)
    requires b > 0.0 && d > 0.0 && a * d == c * b
    ensures a / b == c / d
  {
    assert a == (a / b) * b;
    assert c == (c / d) * d;
    assert (a / b) * b * d == (c / d) * d * b;
  }

  /** Two resizes in a row rescale the region as the single resize from the
      first size to the last one does. */
  lemma RescaleComposes(cut: CutInfo, w0: real, h0: real, w1: real, h1: real, w2: real, h2: real)
    requires w0 != 0.0 && h0 != 0.0 && w1 != 0.0 && h1 != 0.0
    ensures Rescale(Rescale(cut, w0, h0, w1, h1), w1, h1, w2, h2) == Rescale(cut, w0, h0, w2, h2)
  {
    ScaleTwice(cut.left, w0, w1, w2);
    ScaleTwice(cut.top, h0, h1, h2);
    ScaleExtentTwice(cut.width, w0, w1, w2);
    ScaleExtentTwice(cut.height, h0, h1, h2);
  }

  lemma ScaleExtentTwice(e: Extent, s0: real, s1: real, s2: real)
    requires s0 != 0.0 && s1 != 0.0
    ensures ScaleExtent(ScaleExtent(e, s1, s0), s2, s1) == ScaleExtent(e, s2, s0)
  {
    if e.Px? {
      ScaleTwice(e.px, s0, s1, s2);
    }
  }

  lemma ScaleTwice(v: real, s0: real, s1: real, s2: real)
    requires s0 != 0.0 && s1 != 0.0
    ensures (v * s1 / s0) * s2 / s1 == v * s2 / s0
  {
    calc {
      (v * s1 / s0) * s2 / s1;
    ==
      (v / s0) * (s1 / s1) * s2;
    ==
      v * s2 / s0;
    }
  }
}
