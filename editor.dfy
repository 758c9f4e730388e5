/** The crop-and-annotate editor as a stateful object: the region style and the
    held handle, the pen state and the recorded strokes, the cached image size,
    and which event listeners are currently attached. Each method is one event
    handler of the editor; DOM reads (client rectangles, the original image's
    size) arrive as parameters. */
module Editor {
  import opened Wrappers
  import opened Geometry
  import opened Crop
  import opened Strokes
  import opened Export

  /** The `pointerEvents` style of the stroke canvases. */
  datatype PointerEvents = PointerAuto | PointerNone

  /** The event types the stroke handler distinguishes. */
  datatype MouseType = MouseDown | MouseMove | MouseUp

  const DefaultColor: string := "#FF0000"
  const DefaultLineWidth: real := 2.0

  /** The crop handlers (document mousedown/mouseup -> updateDown, mousemove
      -> updateCursor) are re-created by every render, and a listener is
      removed only by passing the very function that was added. The attached
      handler sets are therefore named by the render g that created them. A
      reset run by render g's handlers adds g's set in crop mode and removes
      g's set otherwise; every other render's set stays as it is. */
  function CropListenersAfterReset(attached: set<nat>, cutting: bool, g: nat): (s: set<nat>)
    ensures g in s <==> cutting
    ensures s - {g} == attached - {g}
  {
    if cutting then attached + {g} else attached - {g}
  }

  /** Entering crop mode in one render and leaving it in a later one leaves
      the handlers of the first render attached. */
  lemma LeavingLaterKeepsHandlers(attached: set<nat>, entered: nat, left: nat)
    requires entered != left
    ensures entered in CropListenersAfterReset(CropListenersAfterReset(attached, true, entered), false, left)
  {
  }

  /** The render whose handlers every render would share if they were kept
      stable across renders. */
  const StableRender: nat := 0

  /** With handlers that are the same function in every render, a reset
      attaches them exactly in crop mode: leaving crop mode detaches them. */
  function StableCropListenersAfterReset(attached: set<nat>, cutting: bool): (s: set<nat>)
    requires attached <= {StableRender}
    ensures s <= {StableRender}
    ensures s != {} <==> cutting
  {
    CropListenersAfterReset(attached, cutting, StableRender)
  }

  class EditImage {
    // the crop region
    var cut: CutInfo               // the region's style
    var handle: Position           // the handle a resize drag moves
    var down: bool                 // a resize drag is in progress
    var cursor: Cursor             // the cursor shown over the editor
    var moveFrom: Option<Point>    // reference point of a move drag
    var imageW: real               // cached displayed image size
    var imageH: real
    // the tools
    var cutting: bool              // crop mode is on
    var pen: Option<PenKind>       // the active pen, if any
    var lineColor: string
    var lineWidth: real
    var strokes: seq<LineInfo>
    var pointerEvents: PointerEvents
    // attached listeners
    var generation: nat            // the render whose handlers the next event runs
    var cropListeners: set<nat>    // renders whose updateDown/updateCursor are attached to the document
    var resizeListeners: set<nat>  // renders whose updateCutInfo is attached to the document
    var moveListener: bool         // document mousemove -> UpdateRegion
    var penListener: bool          // image mousedown -> PencilMouse
    var strokeListeners: bool      // image mousemove, document mouseup -> PencilMouse

    /** Crop mode and pen mode exclude each other, some crop handlers are
        attached while crop mode is on, the pen listener is attached exactly
        while a pen is picked, and every stroke has a point. */
    ghost predicate Valid()
      reads this
    {
      (cutting ==> pen.None?) &&
      (cutting ==> cropListeners != {}) &&
      penListener == pen.Some? &&
      AllStarted(strokes)
    }

    /** The editor as it opens on an image displayed at width x height. */
    constructor (width: real, height: real)
      ensures Valid()
      ensures cut == InitialCut && handle == Left && !down && cursor == Auto && moveFrom.None?
      ensures imageW == width && imageH == height
      ensures !cutting && pen.None? && lineColor == DefaultColor && lineWidth == DefaultLineWidth
      ensures strokes == [] && pointerEvents == PointerAuto
      ensures generation == 0 && cropListeners == {} && resizeListeners == {}
      ensures !moveListener && !penListener && !strokeListeners
    {
      cut, handle, down, cursor, moveFrom := InitialCut, Left, false, Auto, None;
      imageW, imageH := width, height;
      cutting, pen, lineColor, lineWidth := false, None, DefaultColor, DefaultLineWidth;
      strokes, pointerEvents := [], PointerAuto;
      generation, cropListeners, resizeListeners := 0, {}, {};
      moveListener, penListener, strokeListeners := false, false, false;
    }

    // ------------------------------------------------------------ crop region

    /** Pointer moved while no button is held: choose the handle the pointer
        addresses. region is the region's client rectangle. */
    method UpdateCursor(x: real, y: real, region: Rect)
      requires Valid()
      modifies this`handle, this`cursor
      ensures Valid()
      ensures var zone := Hover(x, y, region);
              if old(!down && cutting) && zone.Some?
              then handle == zone.value && cursor == CursorOf(zone.value)
              else handle == old(handle) && cursor == old(cursor)
    {
      if down || !cutting {
        return;
      }
      match Hover(x, y, region)
      case Some(p) =>
        handle := p;
        cursor := CursorOf(p);
      case None =>
    }

    method UpdateLeft(x: real, parentLeft: real, right: real) returns (width: real)
      modifies this`cut
      ensures width == Max(right - x, 0.0)
      ensures cut == old(cut).(left := x - parentLeft, width := Px(width))
    {
      width := Max(right - x, 0.0);
      cut := cut.(left := x - parentLeft, width := Px(width));
    }

    method UpdateTop(y: real, parentTop: real, bottom: real) returns (height: real)
      modifies this`cut
      ensures height == Max(bottom - y, 0.0)
      ensures cut == old(cut).(top := y - parentTop, height := Px(height))
    {
      height := Max(bottom - y, 0.0);
      cut := cut.(top := y - parentTop, height := Px(height));
    }

    method UpdateWidth(x: real, left: real) returns (width: real)
      modifies this`cut
      ensures width == Max(x - left, 0.0)
      ensures cut == old(cut).(width := Px(width))
    {
      width := Max(x - left, 0.0);
      cut := cut.(width := Px(width));
    }

    method UpdateHeight(y: real, top: real) returns (height: real)
      modifies this`cut
      ensures height == Max(y - top, 0.0)
      ensures cut == old(cut).(height := Px(height))
    {
      height := Max(y - top, 0.0);
      cut := cut.(height := Px(height));
    }

    /** One case of the resize switch on the horizontal axis, for a handle on
        the left side: stop MinSize short of the parent's right edge, move the
        left side to x, and report whether the width collapsed. */
    method DragLeftSide(x: real, parent: Rect, region: Rect) returns (collapsed: bool)
      requires x >= parent.left
      modifies this`cut
      ensures var a := ResizeAxis(true, false, x, parent.left, parent.right, region.left, region.right,
                                  Span(old(cut).left, old(cut).width));
              cut == old(cut).(left := a.start, width := a.extent)
      ensures collapsed == Collapsed(cut.width)
    {
      var v := x;
      if v > parent.right - MinSize { v := parent.right - MinSize; }
      var width := UpdateLeft(v, parent.left, region.right);
      collapsed := width <= MinSize;
    }

    /** The same for a handle on the top side. */
    method DragTopSide(y: real, parent: Rect, region: Rect) returns (collapsed: bool)
      requires y >= parent.top
      modifies this`cut
      ensures var a := ResizeAxis(true, false, y, parent.top, parent.bottom, region.top, region.bottom,
                                  Span(old(cut).top, old(cut).height));
              cut == old(cut).(top := a.start, height := a.extent)
      ensures collapsed == Collapsed(cut.height)
    {
      var v := y;
      if v > parent.bottom - MinSize { v := parent.bottom - MinSize; }
      var height := UpdateTop(v, parent.top, region.bottom);
      collapsed := height <= MinSize;
    }

    /** For a handle on the right side: stop at the parent's right edge and
        move the right side to x. */
    method DragRightSide(x: real, parent: Rect, region: Rect) returns (collapsed: bool)
      requires x >= parent.left
      modifies this`cut
      ensures var a := ResizeAxis(false, true, x, parent.left, parent.right, region.left, region.right,
                                  Span(old(cut).left, old(cut).width));
              cut == old(cut).(left := a.start, width := a.extent)
      ensures collapsed == Collapsed(cut.width)
    {
      var v := x;
      if v > parent.right { v := parent.right; }
      var width := UpdateWidth(v, region.left);
      collapsed := width <= MinSize;
    }

    /** For a handle on the bottom side. */
    method DragBottomSide(y: real, parent: Rect, region: Rect) returns (collapsed: bool)
      requires y >= parent.top
      modifies this`cut
      ensures var a := ResizeAxis(false, true, y, parent.top, parent.bottom, region.top, region.bottom,
                                  Span(old(cut).top, old(cut).height));
              cut == old(cut).(top := a.start, height := a.extent)
      ensures collapsed == Collapsed(cut.height)
    {
      var v := y;
      if v > parent.bottom { v := parent.bottom; }
      var height := UpdateHeight(v, region.top);
      collapsed := height <= MinSize;
    }

    /** The switch of the resize step over the held handle, after the pointer
        was clamped to the parent's left and top edges: each side the handle
        owns follows the pointer, and a collapsed side makes the handle jump to
        the mirrored one. */
    method MoveHeldHandle(x: real, y: real, parent: Rect, region: Rect)
      requires x >= parent.left && y >= parent.top
      modifies this`cut, this`handle
      ensures var ax := ResizeAxis(OwnsLeft(old(handle)), OwnsRight(old(handle)), x, parent.left, parent.right,
                                   region.left, region.right, Span(old(cut).left, old(cut).width));
              var ay := ResizeAxis(OwnsTop(old(handle)), OwnsBottom(old(handle)), y, parent.top, parent.bottom,
                                   region.top, region.bottom, Span(old(cut).top, old(cut).height));
              cut == CutInfo(ax.start, ay.start, ax.extent, ay.extent) &&
              handle == Flip(old(handle), MovesX(old(handle)) && Collapsed(ax.extent),
                             MovesY(old(handle)) && Collapsed(ay.extent))
    {
      ghost var ax := ResizeAxis(OwnsLeft(handle), OwnsRight(handle), x, parent.left, parent.right,
                                 region.left, region.right, Span(cut.left, cut.width));
      ghost var ay := ResizeAxis(OwnsTop(handle), OwnsBottom(handle), y, parent.top, parent.bottom,
                                 region.top, region.bottom, Span(cut.top, cut.height));
      match handle
      case Left =>
        var w := DragLeftSide(x, parent, region);
        assert cut == CutInfo(ax.start, ay.start, ax.extent, ay.extent);
        if w { handle := Right; }
        assert handle == Flip(Left, w, false);
      case LeftTop =>
        var w := DragLeftSide(x, parent, region);
        var h := DragTopSide(y, parent, region);
        assert cut == CutInfo(ax.start, ay.start, ax.extent, ay.extent);
        if w && h { handle := RightBottom; }
        else if w { handle := RightTop; }
        else if h { handle := LeftBottom; }
        assert handle == Flip(LeftTop, w, h);
      case Top =>
        var h := DragTopSide(y, parent, region);
        assert cut == CutInfo(ax.start, ay.start, ax.extent, ay.extent);
        if h { handle := Bottom; }
        assert handle == Flip(Top, false, h);
      case RightTop =>
        var w := DragRightSide(x, parent, region);
        var h := DragTopSide(y, parent, region);
        assert cut == CutInfo(ax.start, ay.start, ax.extent, ay.extent);
        if w && h { handle := LeftBottom; }
        else if w { handle := LeftTop; }
        else if h { handle := RightBottom; }
        assert handle == Flip(RightTop, w, h);
      case Right =>
        var w := DragRightSide(x, parent, region);
        assert cut == CutInfo(ax.start, ay.start, ax.extent, ay.extent);
        if w { handle := Left; }
        assert handle == Flip(Right, w, false);
      case RightBottom =>
        var w := DragRightSide(x, parent, region);
        var h := DragBottomSide(y, parent, region);
        assert cut == CutInfo(ax.start, ay.start, ax.extent, ay.extent);
        if w && h { handle := LeftTop; }
        else if w { handle := LeftBottom; }
        else if h { handle := RightTop; }
        assert handle == Flip(RightBottom, w, h);
      case Bottom =>
        var h := DragBottomSide(y, parent, region);
        assert cut == CutInfo(ax.start, ay.start, ax.extent, ay.extent);
        if h { handle := Top; }
        assert handle == Flip(Bottom, false, h);
      case LeftBottom =>
        var w := DragLeftSide(x, parent, region);
        var h := DragBottomSide(y, parent, region);
        assert cut == CutInfo(ax.start, ay.start, ax.extent, ay.extent);
        if w && h { handle := RightTop; }
        else if w { handle := RightBottom; }
        else if h { handle := LeftTop; }
        assert handle == Flip(LeftBottom, w, h);
    }

    /** Pointer moved while a handle is held: one resize step. The pointer is
        clamped to the parent's left and top edges, then the held handle's
        sides follow it as Resize describes. parent and region are client
        rectangles. */
    method UpdateCutInfo(px: real, py: real, parent: Rect, region: Rect)
      requires Valid()
      modifies this`cut, this`handle
      ensures Valid()
      ensures old(down && cutting) ==>
                cut == Resize(old(handle), px, py, parent, region, old(cut)).cut &&
                handle == Resize(old(handle), px, py, parent, region, old(cut)).handle
      ensures !old(down && cutting) ==> cut == old(cut) && handle == old(handle)
    {
      if !down || !cutting {
        return;
      }
      var x := if px < parent.left then parent.left else px;
      var y := if py < parent.top then parent.top else py;
      // clamping to the low edges first changes nothing Resize would not do
      assert Clamp(OwnsLeft(handle), OwnsRight(handle), x, parent.left, parent.right)
             == Clamp(OwnsLeft(handle), OwnsRight(handle), px, parent.left, parent.right);
      assert Clamp(OwnsTop(handle), OwnsBottom(handle), y, parent.top, parent.bottom)
             == Clamp(OwnsTop(handle), OwnsBottom(handle), py, parent.top, parent.bottom);
      MoveHeldHandle(x, y, parent, region);
    }

    /** The editor re-renders after a state change: from now on events run
        the handlers this render creates. */
    method Render()
      requires Valid()
      modifies this`generation
      ensures Valid()
      ensures generation == old(generation) + 1
    {
      generation := generation + 1;
    }

    /** Render g's updateDown, for a document mousedown (isDown) or mouseup:
        start or end a resize drag, attaching or removing render g's
        updateCutInfo. */
    method UpdateDown(isDown: bool, g: nat)
      requires Valid()
      modifies this`down, this`resizeListeners
      ensures Valid()
      ensures down == isDown
      ensures resizeListeners == if isDown then old(resizeListeners) + {g} else old(resizeListeners) - {g}
    {
      down := isDown;
      if isDown {
        resizeListeners := resizeListeners + {g};
      } else {
        resizeListeners := resizeListeners - {g};
      }
    }

    /** A document mousedown (isDown) or mouseup: every attached updateDown
        runs, each attaching or removing its own render's updateCutInfo. */
    method Press(isDown: bool)
      requires Valid()
      modifies this`down, this`resizeListeners
      ensures Valid()
      ensures down == if cropListeners == {} then old(down) else isDown
      ensures resizeListeners == if isDown then old(resizeListeners) + cropListeners
                                 else old(resizeListeners) - cropListeners
    {
      var todo := cropListeners;
      while todo != {}
        invariant Valid() && todo <= cropListeners
        invariant down == if todo == cropListeners then old(down) else isDown
        invariant resizeListeners == if isDown then old(resizeListeners) + (cropListeners - todo)
                                     else old(resizeListeners) - (cropListeners - todo)
        decreases |todo|
      {
        var g :| g in todo;
        UpdateDown(isDown, g);
        todo := todo - {g};
      }
    }

    /** A document mousemove during a resize drag: every attached
        updateCutInfo runs, one after the other, on the same pointer position
        and the same region rectangle, the region being re-rendered only after
        the event. */
    method DispatchResize(x: real, y: real, parent: Rect, region: Rect)
      requires Valid()
      modifies this`cut, this`handle
      ensures Valid()
      ensures old(down && cutting) ==>
                Step(cut, handle) == ResizeSteps(|resizeListeners|, old(handle), x, y, parent, region, old(cut))
      ensures !old(down && cutting) ==> cut == old(cut) && handle == old(handle)
    {
      var n := |resizeListeners|;
      var i := 0;
      while i < n
        invariant Valid() && 0 <= i <= n
        invariant down && cutting ==> Step(cut, handle) == ResizeSteps(i, old(handle), x, y, parent, region, old(cut))
        invariant !(down && cutting) ==> cut == old(cut) && handle == old(handle)
      {
        UpdateCutInfo(x, y, parent, region);
        i := i + 1;
      }
    }

    /** Mousedown (isDown) or mouseup on the region itself: start or end a
        move drag from pointer (x, y). */
    method UpdateMoveDown(isDown: bool, x: real, y: real)
      requires Valid()
      modifies this`moveFrom, this`moveListener
      ensures Valid()
      ensures moveListener == isDown
      ensures moveFrom == if isDown then Some(Point(x, y)) else old(moveFrom)
    {
      if isDown {
        moveFrom := Some(Point(x, y));
        moveListener := true;
      } else {
        moveListener := false;
      }
    }

    /** Pointer moved during a move drag: translate the region by the delta
        from the reference point, clamped to the parent, and make the pointer
        the new reference point. Without a region, or before any mousedown on
        it, nothing changes. */
    method UpdateRegion(x: real, y: real, parent: Rect, region: Rect)
      requires Valid()
      modifies this`cut, this`moveFrom
      ensures Valid()
      ensures old(cutting) && old(moveFrom).Some? ==>
                moveFrom == Some(Point(x, y)) &&
                cut == Move(old(cut), old(moveFrom).value, Point(x, y), parent.Width(), parent.Height(),
                            region.Width(), region.Height())
      ensures !(old(cutting) && old(moveFrom).Some?) ==> cut == old(cut) && moveFrom == old(moveFrom)
    {
      if !cutting || moveFrom.None? {
        return;
      }
      var from := moveFrom.value;
      moveFrom := Some(Point(x, y));
      cut := Move(cut, from, Point(x, y), parent.Width(), parent.Height(), region.Width(), region.Height());
    }

    /** The displayed image now measures newW x newH: rescale the region and
        cache the new size. Only observed while the region exists. */
    method OnImageResize(newW: real, newH: real)
      requires Valid()
      requires imageW != 0.0 && imageH != 0.0
      modifies this`cut, this`imageW, this`imageH
      ensures Valid()
      ensures old(cutting) ==>
                cut == Rescale(old(cut), old(imageW), old(imageH), newW, newH) &&
                imageW == newW && imageH == newH
      ensures !old(cutting) ==> cut == old(cut) && imageW == old(imageW) && imageH == old(imageH)
    {
      if !cutting {
        return;
      }
      var oldW, oldH := imageW, imageH;
      imageW, imageH := newW, newH;
      var scaled := Rescale(cut, oldW, oldH, newW, newH);
      if scaled != cut {
        cut := scaled;
      }
    }

    // ------------------------------------------------------------ strokes

    /** A pointer event for the pen at image offset p. mousedown starts a
        stroke; mousemove and mouseup extend the last one, and mouseup ends
        the drag. With no stroke to extend the handler fails before changing
        anything. */
    method PencilMouse(e: MouseType, p: Point)
      requires Valid()
      modifies this`strokes, this`strokeListeners
      ensures Valid()
      ensures e == MouseDown ==>
                strokes == old(strokes) + [LineInfo(lineColor, lineWidth, [p])] && strokeListeners
      ensures e != MouseDown && old(strokes) != [] ==>
                |strokes| == |old(strokes)| &&
                strokes[..|strokes| - 1] == old(strokes)[..|old(strokes)| - 1] &&
                strokes[|strokes| - 1] == Extend(pen, old(strokes)[|old(strokes)| - 1], p) &&
                strokeListeners == (e != MouseUp && old(strokeListeners))
      ensures e != MouseDown && old(strokes) == [] ==>
                strokes == old(strokes) && strokeListeners == old(strokeListeners)
    {
      if e == MouseDown {
        strokes := strokes + [LineInfo(lineColor, lineWidth, [p])];
        strokeListeners := true;
        return;
      }
      if strokes == [] {
        return;
      }
      var n := |strokes|;
      var last := Extend(pen, strokes[n - 1], p);
      strokes := strokes[n - 1 := last];
      if e == MouseUp {
        strokeListeners := false;
      }
    }

    // ------------------------------------------------------------ tools

    /** Apply the two modes to the listeners, the cursor and the region, with
        the handlers of the current render. */
    method Reset()
      modifies this`cut, this`cursor, this`cropListeners, this`penListener, this`pointerEvents
      ensures cropListeners == CropListenersAfterReset(old(cropListeners), cutting, generation)
      ensures penListener == pen.Some?
      ensures !cutting ==> cut == InitialCut && cursor == Auto
      ensures cutting ==> cut == old(cut) && cursor == old(cursor)
      ensures pointerEvents == if pen.Some? then PointerNone else old(pointerEvents)
    {
      if !cutting {
        cut := InitialCut;
        cropListeners := cropListeners - {generation};
        cursor := Auto;
      } else {
        cropListeners := cropListeners + {generation};
      }
      if pen.Some? {
        pointerEvents := PointerNone;
        penListener := true;
      } else {
        penListener := false;
      }
    }

    /** Pick a pen with its colour and width: crop mode ends, and the crop
        handlers of this render are removed (those of an earlier render stay). */
    method Pencil(color: string, width: real, kind: PenKind)
      requires Valid()
      modifies this`lineColor, this`lineWidth, this`pen, this`cutting,
               this`cut, this`cursor, this`cropListeners, this`penListener, this`pointerEvents
      ensures Valid()
      ensures lineColor == color && lineWidth == width && pen == Some(kind) && !cutting
      ensures cut == InitialCut && cursor == Auto && penListener
      ensures cropListeners == old(cropListeners) - {generation}
      ensures pointerEvents == PointerNone
    {
      lineWidth := width;
      lineColor := color;
      pen := Some(kind);
      cutting := false;
      Reset();
    }

    /** Toggle crop mode: any pen is put down. */
    method Cut()
      requires Valid()
      modifies this`pen, this`cutting, this`cut, this`cursor, this`cropListeners, this`penListener,
               this`pointerEvents
      ensures Valid()
      ensures cutting == !old(cutting) && pen.None? && !penListener
      ensures cropListeners == CropListenersAfterReset(old(cropListeners), cutting, generation)
      ensures !cutting ==> cut == InitialCut && cursor == Auto
      ensures cutting ==> cut == old(cut) && cursor == old(cursor)
      ensures pointerEvents == old(pointerEvents)
    {
      cutting := !cutting;
      pen := None;
      Reset();
    }

    /** Export: with nothing to save (no region, no stroke) nothing happens;
        otherwise the export plan is returned and the editor goes back to no
        tool, no strokes and the initial region. displayW x displayH is the
        displayed image, primitiveW x primitiveH the original, region the
        region's client rectangle. */
    method Save(displayW: real, displayH: real, primitiveW: real, primitiveH: real, region: Rect)
      returns (plan: Option<Plan>)
      requires Valid()
      requires displayW != 0.0 && displayH != 0.0
      modifies this`pen, this`cutting, this`strokes,
               this`cut, this`cursor, this`cropListeners, this`penListener, this`pointerEvents
      ensures Valid()
      ensures !old(cutting) && old(strokes) == [] ==> plan.None? && unchanged(this)
      ensures old(cutting) || old(strokes) != [] ==>
                plan == Some(PlanAsWritten(displayW, displayH, primitiveW, primitiveH,
                                        if old(cutting) then Some(Region(old(cut), region.Width(), region.Height()))
                                        else None,
                                        old(strokes))) &&
                !cutting && pen.None? && strokes == [] && cut == InitialCut && cursor == Auto &&
                cropListeners == old(cropListeners) - {generation} && !penListener &&
                pointerEvents == old(pointerEvents)
    {
      if !cutting && strokes == [] {
        return None;
      }
      var area := if cutting then Some(Region(cut, region.Width(), region.Height())) else None;
      plan := Some(PlanAsWritten(displayW, displayH, primitiveW, primitiveH, area, strokes));
      cutting := false;
      pen := None;
      strokes := [];
      Reset();
    }

    /** The editor is unmounted: its cleanup, created by the first render,
        removes that render's crop and resize handlers and the move handler.
        The crop and resize handlers of later renders and the listeners of an
        unfinished stroke stay. */
    method Unmount()
      modifies this`cropListeners, this`resizeListeners, this`moveListener
      ensures cropListeners == old(cropListeners) - {0} && resizeListeners == old(resizeListeners) - {0}
      ensures !moveListener
    {
      cropListeners, resizeListeners := cropListeners - {0}, resizeListeners - {0};
      moveListener := false;
    }
  }

  /** Crop mode toggled on, off and on again, with the re-render each toggle
      causes: the first render's crop handlers were never removed, so a
      mousedown on the bottom-right handle of a region filling a 100 x 100
      parent attaches the resize handlers of two renders. */
  method ReenteredCropModeAttachesTwice() returns (e: EditImage)
    ensures e.Valid() && e.cutting && e.down && e.handle == RightBottom && e.cut == InitialCut
    ensures e.cropListeners == {0, 2} && e.resizeListeners == {0, 2}
  {
    e := new EditImage(100.0, 100.0);
    e.Cut();
    assert e.cutting && e.cropListeners == {0} && e.cut == InitialCut;
    e.Render();
    e.Cut();
    assert !e.cutting && e.cropListeners == {0} && e.generation == 1;
    e.Render();
    e.Cut();
    assert e.cutting && e.cropListeners == {0, 2} && e.cut == InitialCut && !e.down;
    var box := Rect(0.0, 0.0, 100.0, 100.0);
    assert Hover(101.0, 101.0, box) == Some(RightBottom);
    e.UpdateCursor(101.0, 101.0, box);
    e.Press(true);
  }

  /** With two resize handlers attached, one mousemove of that handle to
      (2, 2) runs the step twice: the region ends 98 x 98 at (2, 2) instead of
      the 2 x 2 at (0, 0) a single step gives. */
  method TwoHandlersStepTwice(e: EditImage) returns (step: Step)
    requires e.Valid() && e.cutting && e.down && e.handle == RightBottom && e.cut == InitialCut
    requires |e.resizeListeners| == 2
    modifies e
    ensures step == Step(CutInfo(2.0, 2.0, Px(98.0), Px(98.0)), LeftTop)
    ensures step != Resize(RightBottom, 2.0, 2.0, Rect(0.0, 0.0, 100.0, 100.0), Rect(0.0, 0.0, 100.0, 100.0),
                           InitialCut)
  {
    var box := Rect(0.0, 0.0, 100.0, 100.0);
    e.DispatchResize(2.0, 2.0, box, box);
    step := Step(e.cut, e.handle);
    DoubleStepAfterFlip();
  }
}
