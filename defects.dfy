/**
 * The last step of `detect_defects`: of the contours the edge map yields,
 * keep the bounding box of each contour whose area reaches the threshold,
 * in contour order. The contour extraction itself is an input: each contour
 * comes with the area and the bounding box OpenCV reports for it.
 */
module Defects {
  /** A bounding box `(x, y, w, h)` in pixels. */
  datatype Box = Box(x: int, y: int, w: int, h: int)

  /** A contour as `cv2.contourArea` and `cv2.boundingRect` describe it. */
  datatype Contour = Contour(area: real, bbox: Box)

  /** Contours with a smaller area are skipped. */
  const MinDefectArea: real := 500.0

  predicate IsDefect(c: Contour)
  {
    !(c.area < MinDefectArea)
  }

  /** Specification of the filter: the boxes of the defect contours, in order. */
  function KeptBoxes(contours: seq<Contour>): (boxes: seq<Box>)
    ensures |boxes| <= |contours|
  {
    if contours == [] then []
    else
      var last := contours[|contours| - 1];
      KeptBoxes(contours[..|contours| - 1]) + (if IsDefect(last) then [last.bbox] else [])
  }

  /**
   * An independent description of which contours are kept: the positions of
   * the defect contours, strictly increasing, and every defect contour among them.
   */
  function DefectIndices(contours: seq<Contour>): (idx: seq<nat>)
    ensures forall k :: 0 <= k < |idx| ==> idx[k] < |contours| && IsDefect(contours[idx[k]])
    ensures forall k, l :: 0 <= k < l < |idx| ==> idx[k] < idx[l]
    ensures forall j :: 0 <= j < |contours| && IsDefect(contours[j]) ==> j in idx
  {
    if contours == [] then []
    else
      var n := |contours| - 1;
      var front := contours[..n];
      assert forall j :: 0 <= j < n ==> front[j] == contours[j];
      DefectIndices(front) + (if IsDefect(contours[n]) then [n] else [])
  }

  /** The k-th kept box is the box of the k-th defect contour, so the filter keeps order. */
  lemma {:induction false} KeptBoxesFollowDefectIndices(contours: seq<Contour>)
    ensures |KeptBoxes(contours)| == |DefectIndices(contours)|
    ensures forall k :: 0 <= k < |KeptBoxes(contours)| ==>
      KeptBoxes(contours)[k] == contours[DefectIndices(contours)[k]].bbox
  {
    if contours != [] {
      var n := |contours| - 1;
      var front := contours[..n];
      KeptBoxesFollowDefectIndices(front);
      forall k | 0 <= k < |DefectIndices(front)|
        ensures front[DefectIndices(front)[k]] == contours[DefectIndices(front)[k]]
      {
      }
    }
  }

  /** Filtering distributes over concatenation: the output of a part never moves. */
  lemma {:induction false} KeptBoxesConcat(a: seq<Contour>, b: seq<Contour>)
    ensures KeptBoxes(a + b) == KeptBoxes(a) + KeptBoxes(b)
  {
    if b == [] {
      assert a + b == a;
    } else {
      var n := |b| - 1;
      assert (a + b)[..|a + b| - 1] == a + b[..n];
      assert (a + b)[|a + b| - 1] == b[n];
      KeptBoxesConcat(a, b[..n]);
    }
  }

  /** A contour below the threshold contributes nothing, wherever it stands. */
  lemma SmallContourIgnored(a: seq<Contour>, c: Contour, b: seq<Contour>)
    requires c.area < MinDefectArea
    ensures KeptBoxes(a + [c] + b) == KeptBoxes(a + b)
  {
    KeptBoxesConcat(a + [c], b);
    KeptBoxesConcat(a, [c]);
    assert [c][..0] == [];
    KeptBoxesConcat(a, b);
  }

  /** A contour at or above the threshold contributes exactly its box, in place. */
  lemma DefectContourKept(a: seq<Contour>, c: Contour, b: seq<Contour>)
    requires c.area >= MinDefectArea
    ensures KeptBoxes(a + [c] + b) == KeptBoxes(a) + [c.bbox] + KeptBoxes(b)
  {
    KeptBoxesConcat(a + [c], b);
    KeptBoxesConcat(a, [c]);
    assert [c][..0] == [];
  }

  /** The loop of `detect_defects`: skip small contours, append the boxes of the others. */
  method DetectDefects(contours: seq<Contour>) returns (bboxes: seq<Box>)
    ensures bboxes == KeptBoxes(contours)
  {
    bboxes := [];
    for i := 0 to |contours|
      invariant bboxes == KeptBoxes(contours[..i])
    {
      var cnt := contours[i];
      assert contours[..i + 1][..i] == contours[..i];
      if cnt.area < MinDefectArea {
        continue;
      }
      bboxes := bboxes + [cnt.bbox];
    }
    assert contours[..|contours|] == contours;
  }
}
