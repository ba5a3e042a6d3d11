/**
 * The QR scanning script: stop when nothing was decoded, otherwise look the
 * id up and, when the detector reported the code's corners, outline the code
 * with a closed polygon and write the decoded text above its first corner.
 */
module BarcodeDemo {
  import opened Wrappers
  import opened Drawing
  import opened PipeDb

  /** A corner as the QR detector reports it, in floating-point pixels. */
  datatype PointF = PointF(x: real, y: real)

  /** How far above the first corner the label is written. */
  const LabelOffset: int := 10

  /** `astype(int)`: conversion to an integer by truncation toward zero. */
  function TruncateToInt(v: real): (t: int)
    ensures 0.0 <= v ==> 0 <= t && t as real <= v < t as real + 1.0
    ensures v < 0.0 ==> t <= 0 && t as real - 1.0 < v <= t as real
  {
    if v >= 0.0 then v.Floor else -((-v).Floor)
  }

  /** `points.astype(int).reshape(-1, 2)`: the corners as integer pixels, each coordinate truncated toward zero. */
  function PixelPoints(raw: seq<PointF>): (pts: seq<Point>)
    ensures |pts| == |raw|
    ensures forall i :: 0 <= i < |raw| ==>
      -1.0 < raw[i].x - pts[i].x as real < 1.0 && -1.0 < raw[i].y - pts[i].y as real < 1.0
    ensures forall i :: 0 <= i < |raw| ==>
      (0.0 <= raw[i].x ==> 0 <= pts[i].x && pts[i].x as real <= raw[i].x) &&
      (raw[i].x < 0.0 ==> pts[i].x <= 0 && raw[i].x <= pts[i].x as real) &&
      (0.0 <= raw[i].y ==> 0 <= pts[i].y && pts[i].y as real <= raw[i].y) &&
      (raw[i].y < 0.0 ==> pts[i].y <= 0 && raw[i].y <= pts[i].y as real)
  {
    seq(|raw|, i requires 0 <= i < |raw| => Point(TruncateToInt(raw[i].x), TruncateToInt(raw[i].y)))
  }

  /** `(i + 1) % n`: the next vertex, wrapping from the last back to the first. */
  function Successor(i: nat, n: nat): (j: nat)
    requires i < n
    ensures j < n
    ensures j == if i + 1 < n then i + 1 else 0
  {
    (i + 1) % n
  }

  /** The edges of the outline: edge i joins vertex i to its successor. */
  function OutlineSegments(pts: seq<Point>): (segs: seq<Segment>)
    ensures |segs| == |pts|
  {
    seq(|pts|, i requires 0 <= i < |pts| => Segment(pts[i], pts[Successor(i, |pts|)]))
  }

  /**
   * The outline is a closed polygon through the vertices in order: edge i
   * starts at vertex i, ends where the next edge starts, and the last edge
   * ends at the first vertex.
   */
  lemma OutlineIsClosed(pts: seq<Point>)
    ensures forall i :: 0 <= i < |pts| ==> OutlineSegments(pts)[i].from == pts[i]
    ensures forall i :: 0 <= i < |pts| ==>
      OutlineSegments(pts)[i].to == OutlineSegments(pts)[Successor(i, |pts|)].from
    ensures |pts| > 0 ==> OutlineSegments(pts)[|pts| - 1].to == pts[0]
  {
  }

  /** Where the decoded text is written: straight above the first vertex. */
  function LabelAnchor(pts: seq<Point>): (p: Point)
    requires |pts| > 0
    ensures p.x == pts[0].x && p.y < pts[0].y && pts[0].y - p.y == LabelOffset
  {
    Point(pts[0].x, pts[0].y - LabelOffset)
  }

  /** The `cv2.line` calls that draw the given segments, one per segment, in order. */
  function LineOps(segs: seq<Segment>): (ops: seq<DrawOp>)
    ensures |ops| == |segs|
    ensures forall i :: 0 <= i < |segs| ==> ops[i] == Line(segs[i])
  {
    seq(|segs|, i requires 0 <= i < |segs| => Line(segs[i]))
  }

  /** `for i in range(len(pts)): cv2.line(img, pts[i], pts[(i + 1) % len(pts)], ...)` */
  method DrawOutline(img: Canvas, pts: seq<Point>)
    modifies img
    ensures img.ops == old(img.ops) + LineOps(OutlineSegments(pts))
  {
    ghost var lines := LineOps(OutlineSegments(pts));
    for i := 0 to |pts|
      invariant img.ops == old(img.ops) + lines[..i]
    {
      img.DrawLine(Segment(pts[i], pts[(i + 1) % |pts|]));
      assert lines[..i + 1] == lines[..i] + [lines[i]];
    }
    assert lines[..|pts|] == lines;
  }

  /** How the script ends once `barcode.jpg` has been read. */
  datatype ScanOutcome =
    | NoQrCode
    | Saved(id: string, details: Details)
    | IndexError(id: string, details: Details)

  /**
   * The script from `detectAndDecode` on, given the decoded text and the
   * corners (`None` when the detector reports none). With an empty corner
   * list the loop draws nothing and `pts[0]` raises.
   */
  method Scan(img: Canvas, data: string, points: Option<seq<PointF>>) returns (r: ScanOutcome)
    modifies img
    ensures data == "" ==> r == NoQrCode && img.ops == old(img.ops)
    ensures data != "" && (points.None? || points == Some([])) ==>
      img.ops == old(img.ops) &&
      r == (if points.None? then Saved(data, FetchDetails(data)) else IndexError(data, FetchDetails(data)))
    ensures data != "" && points.Some? && points.value != [] ==>
      var pts := PixelPoints(points.value);
      r == Saved(data, FetchDetails(data)) &&
      img.ops == old(img.ops) + LineOps(OutlineSegments(pts)) + [Text(data, LabelAnchor(pts))]
  {
    if data == "" {
      return NoQrCode;
    }
    var details := FetchDetails(data);
    if points.Some? {
      var pts := PixelPoints(points.value);
      DrawOutline(img, pts);
      if |pts| == 0 {
        return IndexError(data, details);
      }
      img.PutText(data, LabelAnchor(pts));
    }
    r := Saved(data, details);
  }
}
