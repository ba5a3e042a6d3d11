# Pipe inspection demo — Dafny model

The repository is a set of demo scripts for a steel-pipe inspection workflow.
One script decodes a QR code and looks the pipe id up in a hard-coded table.
The other script also finds defect regions on a surface image, draws their
bounding boxes and prints a mock "spray" instruction for an actuator. Nearly
all of the work is done by OpenCV calls. This project models the logic that
sits between those calls, and proves what it does:

- `PipeDb` (`wrappers.dfy`, `pipe_db.dfy`): the two-entry `FAKE_DB` table and
  the total lookup `fetch_details`. The same code appears in both scripts, so
  it is modelled once. The table is a `const` and the lookup is a function, so
  a lookup cannot modify the table.
- `Defects` (`defects.dfy`): the contour filter at the end of `detect_defects`.
  The contours are an input, each given with the area and bounding box that
  OpenCV reports. The loop is a method proved equal to a filter function. The
  filter is proved to keep order, to drop exactly the contours under 500 px²,
  and to agree with an independent description by indices.
- `PyRepr` (`py_repr.dfy`): Python's `repr` of integers, of box tuples
  `(x, y, w, h)` and of lists of them, each with a reader. Reading back what
  was written gives exactly the value written.
- `Spray` (`spray.dfy`): `spray_instruction`, as a structured plan (count,
  boxes shown, cut or not) rendered to the exact message text. It is proved
  that the message reads back as the box count and as exactly the first
  three boxes (or all of them, when there are fewer), and that it ends in
  `...` exactly when there are more than three boxes.
- `Drawing` (`drawing.dfy`): points, rectangles and segments, and a `Canvas`
  class standing for an image that is drawn on in place. Its state is the
  list of drawing calls made on it.
- `PipeInspection` (`pipe_inspection.dfy`): the box-to-corner conversion, the
  loop that draws the boxes, and `main` from the decoded id onwards.
- `BarcodeDemo` (`barcode_demo.dfy`): the QR script from the decode onwards.
  This covers the early exit on an empty decode, the truncation of the
  corners to integers, the closed outline (edge `i` joins vertex `i` to
  vertex `(i + 1) % n`) and the label anchor 10 px above the first vertex.

Floating-point values are modelled as `real`: contour areas, corner
coordinates and the `length_m` field. Areas are only compared and corners are
only truncated.

## Model

| member | source | states |
|---|---|---|
| `PipeDb.FetchDetails` | pipe_inspection_demo.py:12-14 | "PIPE12345" and "PIPE67890" give their stored grade, heat and length; every other id gives the note "Not found in demo DB" |
| `PipeDb.FakeDbKeys` | pipe_inspection_demo.py:7-10 | the table holds exactly the two ids PIPE12345 and PIPE67890 |
| `PipeDb.FetchFindsStoredRecords` | barcode_demo.py:4-11 | the lookup never fails; it gives a full record exactly for ids in the table, and that record is the stored one; otherwise it gives the fallback note |
| `Defects.KeptBoxes` | pipe_inspection_demo.py:43-49 | the filter never yields more boxes than there are contours |
| `Defects.DefectIndices` | pipe_inspection_demo.py:44-47 | the positions of the contours with area ≥ 500 are strictly increasing and in range; every such contour is listed, and every listed one has area ≥ 500 |
| `Defects.KeptBoxesFollowDefectIndices` | pipe_inspection_demo.py:43-49 | the k-th kept box is the bounding box of the k-th contour with area ≥ 500, so the output keeps contour order and holds nothing else |
| `Defects.KeptBoxesConcat` | pipe_inspection_demo.py:44-49 | filtering a concatenation gives the concatenation of the filtered parts |
| `Defects.SmallContourIgnored` | pipe_inspection_demo.py:45-47 | a contour with area < 500 contributes nothing, wherever it stands |
| `Defects.DefectContourKept` | pipe_inspection_demo.py:48-49 | a contour with area ≥ 500 contributes its bounding box, at its position |
| `Defects.DetectDefects` | pipe_inspection_demo.py:43-51 | the appending loop returns exactly the filter's boxes |
| `Spray.PlanSpray` | pipe_inspection_demo.py:56-61 | no spray exactly for an empty list; otherwise the count is the number of boxes, the boxes shown are the first min(n, 3), and the list is marked cut exactly when some box is not shown |
| `Spray.SprayInstruction` | pipe_inspection_demo.py:59-60 | the message is "No defects detected → No spray" exactly when the box list is empty |
| `Spray.ReportsBoxCount` | pipe_inspection_demo.py:61 | a reader of the message gets back the number of boxes; the no-spray message reports no count |
| `Spray.EllipsisIffMoreThanShown` | pipe_inspection_demo.py:61 | the message ends in `...` exactly when there are more than three boxes |
| `Spray.Render` | pipe_inspection_demo.py:61 | the text of a non-empty plan reads back as its count and as exactly its shown boxes, and ends in `...` exactly when the list was cut |
| `Spray.MarkTail` | pipe_inspection_demo.py:61 | the text after the count starts with a space and ends in `...` exactly when the box list was cut |
| `Spray.ListsFirstBoxes` | pipe_inspection_demo.py:61 | a reader of the message gets back exactly `bboxes[:3]`, in order; the no-spray message lists no boxes |
| `Spray.NoSprayReadsNothing` | pipe_inspection_demo.py:59-60 | the no-spray message reports no count and lists no boxes |
| `Spray.ReadsRenderedCount` | pipe_inspection_demo.py:61 | a count written after "Spray mark on " and followed by a non-digit is read back as itself |
| `Spray.ReadsMarkTail` | pipe_inspection_demo.py:61 | after " region(s): " the listed boxes are read back exactly, leaving `...` or nothing |
| `Spray.ReadsRenderedMark` | pipe_inspection_demo.py:61 | the count and the shown boxes of a rendered mark are both read back from its text |
| `PyRepr.NatRepr` | pipe_inspection_demo.py:61 | `len(bboxes)` is written as a non-empty string of decimal digits with no leading zero (a leading `0` only for zero) |
| `PyRepr.NatReprRoundTrip` | pipe_inspection_demo.py:61 | the decimal digits read back as the number they render |
| `PyRepr.ReadDigitsRoundTrip` | pipe_inspection_demo.py:61 | a number's digits followed by a non-digit are read back as the number, leaving the rest |
| `PyRepr.IntRepr` | pipe_inspection_demo.py:61 | a box coordinate is written as `repr` writes an int: a `-` exactly for negative values, then digits with no leading zero |
| `PyRepr.IntReprRoundTrip` | pipe_inspection_demo.py:61 | reading a written coordinate back gives the coordinate and leaves the text after it |
| `PyRepr.BoxRepr` | pipe_inspection_demo.py:61 | a box is written as a parenthesised tuple |
| `PyRepr.BoxReprRoundTrip` | pipe_inspection_demo.py:61 | reading a written tuple back gives the box `(x, y, w, h)` and leaves the text after it |
| `PyRepr.JoinBoxesRoundTrip` | pipe_inspection_demo.py:61 | tuples joined by ", " and closed by "]" are read back as the same boxes, in order |
| `PyRepr.ListRepr` | pipe_inspection_demo.py:61 | a list of boxes is written between brackets |
| `PyRepr.ListReprRoundTrip` | pipe_inspection_demo.py:61 | reading a written list back gives exactly the listed boxes, in order, and leaves the text after it |
| `PipeInspection.BoxCorners` | pipe_inspection_demo.py:92-93 | the corner pair of a box gives the box back, so no box information is lost |
| `PipeInspection.CornersDetermineBox` | pipe_inspection_demo.py:93 | every corner pair is the corner pair of exactly one box |
| `PipeInspection.BoxRectangles` | pipe_inspection_demo.py:91-93 | the box loop makes one rectangle call per box, and nothing but rectangle calls |
| `PipeInspection.RectanglesGiveBackBoxes` | pipe_inspection_demo.py:91-93 | one rectangle is drawn per box, in box order, and each gives back its box |
| `PipeInspection.DrawBoxes` | pipe_inspection_demo.py:91-93 | the loop appends exactly one rectangle per box, in order, to the image and draws nothing else |
| `PipeInspection.Inspect` | pipe_inspection_demo.py:78-96 | an empty decode stops before lookup and drawing; otherwise the run looks the id up, keeps the filter's boxes, draws them on a fresh copy and builds their spray instruction |
| `PipeInspection.DrawingMatchesInstruction` | pipe_inspection_demo.py:88-96 | the number of rectangles drawn is the region count the instruction reports |
| `BarcodeDemo.TruncateToInt` | barcode_demo.py:32 | converting a corner coordinate to an integer truncates toward zero: the result has the sign of the value and lies less than 1 from it, on the zero side |
| `BarcodeDemo.PixelPoints` | barcode_demo.py:32 | one integer point per reported corner; each coordinate is truncated toward zero: same sign as the reported one, no farther from zero, and less than one pixel from it |
| `BarcodeDemo.OutlineSegments` | barcode_demo.py:33-34 | n vertices give exactly n edges |
| `BarcodeDemo.Successor` | barcode_demo.py:34 | `(i + 1) % n` lies in `[0, n)`; it is `i + 1` except for the last vertex, which wraps to 0 |
| `BarcodeDemo.OutlineIsClosed` | barcode_demo.py:33-34 | edge i starts at vertex i and ends where the next edge starts; the last edge ends at the first vertex |
| `BarcodeDemo.LabelAnchor` | barcode_demo.py:35 | the label sits at the first vertex's x, 10 px above it |
| `BarcodeDemo.LineOps` | barcode_demo.py:33-34 | one `cv2.line` call per segment, in segment order |
| `BarcodeDemo.DrawOutline` | barcode_demo.py:33-34 | the loop draws exactly n lines, line i from vertex i to vertex `(i + 1) % n`, and nothing else |
| `Drawing.Canvas.DrawRectangle` | pipe_inspection_demo.py:93 | `cv2.rectangle` adds one rectangle with the given corners to the image and changes nothing else |
| `Drawing.Canvas.DrawLine` | barcode_demo.py:34 | `cv2.line` adds one line with the given ends to the image and changes nothing else |
| `Drawing.Canvas.PutText` | barcode_demo.py:35-36 | `cv2.putText` adds the given text at the given origin to the image and changes nothing else |
| `BarcodeDemo.Scan` | barcode_demo.py:20-36 | an empty decode stops with nothing looked up or drawn; with no corners nothing is drawn; an empty corner list raises at `pts[0]` after drawing nothing; otherwise the closed outline and then the label are drawn |

## Left out

- preprocess.py: a straight-line run of OpenCV calls. Its one filter loop (threshold 150) only draws rectangles into images and fills a mask; it builds no data that is passed on.
- generate_qr.py: a thin wrapper over the `qrcode` library, which does the QR encoding itself.
- The image processing itself: resizing, grey conversion, blur, CLAHE, Canny, dilation, contour extraction, `contourArea`, `boundingRect` and QR detection and decoding. Their results are inputs of the model.
- Reading images, the early exits for missing image files, `print`, `imwrite`, `imshow`, `waitKey` and `destroyAllWindows`.
- Pixels: drawing calls are recorded with their geometry and text. Colours, line thickness, font and scale are left out.
- The enhanced and resized images that `detect_defects` also returns are not modelled; only its box list is.
- `decode_qr` is a wrapper of three library calls (`cv2.QRCodeDetector()`, `cvtColor` and `detectAndDecode`); `PipeInspection.Inspect` takes its decoded text as input, and the corners it also returns are unused by `main`.
- BarcodeDemo.TruncateToInt: works on exact reals, so NaN, infinities and values outside the integer range of `astype(int)` are not covered.
- BarcodeDemo.Scan: takes the corners as a flat list of points, so the shape checks of `reshape(-1, 2)` are not modelled.
- PipeDb.Details: `length_m` is an exact real rather than a binary floating-point number.
