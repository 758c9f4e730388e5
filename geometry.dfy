/** Points, client rectangles and the `Math.min`/`Math.max` of the source, over exact reals. */
module Geometry {

  function Min(a: real, b: real): real { if a <= b then a else b }

  function Max(a: real, b: real): real { if a >= b then a else b }

  datatype Point = Point(x: real, y: real)

  /** A `DOMRect` as `getBoundingClientRect` returns it, in client coordinates. */
  datatype Rect = Rect(left: real, top: real, right: real, bottom: real)
  {
    function Width(): real { right - left }

    function Height(): real { bottom - top }

    /** A rendered box never has a negative extent. */
    predicate WellFormed() { left <= right && top <= bottom }
  }
}
