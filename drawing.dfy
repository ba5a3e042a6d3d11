/**
 * The geometry that the demos hand to OpenCV's drawing calls, and the image
 * they draw on. Pixels are not modelled: an image is the list of drawing
 * calls made on it, oldest first.
 */
module Drawing {
  /** An integer pixel position; x grows to the right, y grows downwards. */
  datatype Point = Point(x: int, y: int)

  /** The two opposite corners given to `cv2.rectangle`. */
  datatype Rect = Rect(topLeft: Point, bottomRight: Point)

  /** The two end points given to `cv2.line`. */
  datatype Segment = Segment(from: Point, to: Point)

  /** One drawing call. Colour, thickness and font are fixed in the scripts and not recorded. */
  datatype DrawOp =
    | Rectangle(rect: Rect)
    | Line(segment: Segment)
    | Text(text: string, origin: Point)

  /** An image that is annotated in place. */
  class Canvas {
    var ops: seq<DrawOp>

    /** An image on which nothing has been drawn yet. */
    constructor ()
      ensures ops == []
    {
      ops := [];
    }

    /** `cv2.rectangle(img, r.topLeft, r.bottomRight, ...)` */
    method DrawRectangle(r: Rect)
      modifies this
      ensures ops == old(ops) + [Rectangle(r)]
    {
      ops := ops + [Rectangle(r)];
    }

    /** `cv2.line(img, s.from, s.to, ...)` */
    method DrawLine(s: Segment)
      modifies this
      ensures ops == old(ops) + [Line(s)]
    {
      ops := ops + [Line(s)];
    }

    /** `cv2.putText(img, text, origin, ...)` */
    method PutText(text: string, origin: Point)
      modifies this
      ensures ops == old(ops) + [Text(text, origin)]
    {
      ops := ops + [Text(text, origin)];
    }
  }
}
