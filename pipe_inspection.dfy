/**
 * `main` of the inspection demo: stop when no QR text was decoded, otherwise
 * look the pipe up, filter the defect contours, draw each box as a rectangle
 * on a fresh copy of the resized image and build the spray instruction.
 */
module PipeInspection {
  import opened Wrappers
  import opened Drawing
  import opened PipeDb
  import opened Defects
  import opened Spray

  /** The corner pair `(x, y)`, `(x + w, y + h)` that `cv2.rectangle` is given. */
  function BoxCorners(b: Box): (r: Rect)
    ensures CornersToBox(r) == b
  {
    Rect(Point(b.x, b.y), Point(b.x + b.w, b.y + b.h))
  }

  /** The box whose corners are those of `r`. */
  function CornersToBox(r: Rect): Box
  {
    Box(r.topLeft.x, r.topLeft.y, r.bottomRight.x - r.topLeft.x, r.bottomRight.y - r.topLeft.y)
  }

  /** Every corner pair comes from exactly one box: the conversion loses nothing. */
  lemma CornersDetermineBox(r: Rect)
    ensures BoxCorners(CornersToBox(r)) == r
  {
  }

  /** The drawing calls the box loop of `main` makes, one rectangle per box, in order. */
  function BoxRectangles(bboxes: seq<Box>): (ops: seq<DrawOp>)
    ensures |ops| == |bboxes|
    ensures forall i :: 0 <= i < |ops| ==> ops[i].Rectangle?
  {
    seq(|bboxes|, i requires 0 <= i < |bboxes| => Rectangle(BoxCorners(bboxes[i])))
  }

  /** Each drawn rectangle gives back the box it was drawn for. */
  lemma RectanglesGiveBackBoxes(bboxes: seq<Box>)
    ensures forall i :: 0 <= i < |bboxes| ==>
      BoxRectangles(bboxes)[i].Rectangle? && CornersToBox(BoxRectangles(bboxes)[i].rect) == bboxes[i]
  {
  }

  /** `for (x, y, w, h) in bboxes: cv2.rectangle(output, (x, y), (x+w, y+h), ...)` */
  method DrawBoxes(output: Canvas, bboxes: seq<Box>)
    modifies output
    ensures output.ops == old(output.ops) + BoxRectangles(bboxes)
  {
    for i := 0 to |bboxes|
      invariant output.ops == old(output.ops) + BoxRectangles(bboxes)[..i]
    {
      output.DrawRectangle(BoxCorners(bboxes[i]));
      assert BoxRectangles(bboxes)[..i + 1] == BoxRectangles(bboxes)[..i] + [Rectangle(BoxCorners(bboxes[i]))];
    }
    assert BoxRectangles(bboxes)[..|bboxes|] == BoxRectangles(bboxes);
  }

  /** What one run of `main` produces, when the input images exist. */
  datatype Inspection =
    | QrNotDetected
    | Inspected(pipeId: string, details: Details, bboxes: seq<Box>, instruction: string)

  /**
   * `main`, from the decoded QR text and the contours of the surface image on.
   * Returns the annotated copy of the resized image when it gets that far.
   */
  method Inspect(pipeId: string, contours: seq<Contour>) returns (r: Inspection, output: Canvas?)
    ensures pipeId == "" ==> r == QrNotDetected && output == null
    ensures pipeId != "" ==> output != null && fresh(output)
    ensures pipeId != "" ==>
      var bboxes := KeptBoxes(contours);
      r == Inspected(pipeId, FetchDetails(pipeId), bboxes, SprayInstruction(bboxes)) &&
      output.ops == BoxRectangles(bboxes)
  {
    if pipeId == "" {
      return QrNotDetected, null;
    }
    var details := FetchDetails(pipeId);
    var bboxes := DetectDefects(contours);
    output := new Canvas();
    DrawBoxes(output, bboxes);
    var instruction := SprayInstruction(bboxes);
    r := Inspected(pipeId, details, bboxes, instruction);
  }

  /** The rectangles drawn and the regions reported in the instruction agree in number. */
  lemma DrawingMatchesInstruction(contours: seq<Contour>)
    ensures var bboxes := KeptBoxes(contours);
      ReportedRegionCount(SprayInstruction(bboxes)) ==
        if BoxRectangles(bboxes) == [] then None else Some(|BoxRectangles(bboxes)|)
  {
    ReportsBoxCount(KeptBoxes(contours));
  }
}
