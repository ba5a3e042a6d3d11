/**
 * `spray_instruction`: the actuator message for a list of defect boxes. The
 * message is built in two steps, a structured plan (count, boxes shown,
 * whether the list was cut) and its rendering with Python's `repr`. Readers
 * recover the count and the listed boxes from the text.
 */
module Spray {
  import opened Wrappers
  import opened Defects
  import opened PyRepr

  /** The message for an empty box list. */
  const NoSprayMessage: string := "No defects detected \U{2192} No spray"

  /** The start of every other message. */
  const CountPrefix: string := "Spray mark on "

  /** What stands between the count and the listed boxes. */
  const RegionsLabel: string := " region(s): "

  /** At most this many boxes are listed. */
  const MaxShown: nat := 3

  datatype SprayPlan =
    | NoSpray
    | SprayMark(count: nat, shown: seq<Box>, truncated: bool)

  function Min(a: nat, b: nat): nat
  {
    if a <= b then a else b
  }

  /** What the message says: the count, the first boxes, and whether some were left out. */
  function PlanSpray(bboxes: seq<Box>): (p: SprayPlan)
    ensures p.NoSpray? <==> bboxes == []
    ensures p.SprayMark? ==> p.count == |bboxes|
    ensures p.SprayMark? ==> |p.shown| == Min(|bboxes|, MaxShown) && p.shown == bboxes[..|p.shown|]
    ensures p.SprayMark? ==> (p.truncated <==> p.shown != bboxes)
  {
    if bboxes == [] then NoSpray
    else SprayMark(|bboxes|, if |bboxes| <= MaxShown then bboxes else bboxes[..MaxShown], |bboxes| > MaxShown)
  }

  predicate EndsWith(s: string, suffix: string)
  {
    |suffix| <= |s| && s[|s| - |suffix|..] == suffix
  }

  /** What follows the count: the listed boxes and, when some were cut, `...`. */
  function MarkTail(shown: seq<Box>, truncated: bool): (t: string)
    ensures |t| > 3 && t[0] == ' '
    ensures EndsWith(t, "...") <==> truncated
  {
    var listed := RegionsLabel + ListRepr(shown);
    assert listed[|listed| - 1] == ']';
    if truncated then
      var t := listed + "...";
      assert t[|t| - 3..] == "...";
      t
    else
      listed
  }

  /** The region count a reader of the message sees, if the message reports one. */
  function ReportedRegionCount(msg: string): Option<nat>
  {
    var afterPrefix :- Expect(msg, CountPrefix);
    var count :- ReadDigits(afterPrefix);
    Some(count.0)
  }

  /** The boxes a reader of the message sees listed, if the message lists any. */
  function ReadListedBoxes(msg: string): Option<seq<Box>>
  {
    var afterPrefix :- Expect(msg, CountPrefix);
    var count :- ReadDigits(afterPrefix);
    var afterLabel :- Expect(count.1, RegionsLabel);
    var listed :- ReadBoxList(afterLabel);
    Some(listed.0)
  }

  /**
   * The message text of a plan: the count and the shown boxes read back from
   * it, and it ends in `...` exactly when the list was cut.
   */
  function Render(p: SprayPlan): (s: string)
    ensures p.SprayMark? ==> ReportedRegionCount(s) == Some(p.count)
    ensures p.SprayMark? ==> ReadListedBoxes(s) == Some(p.shown)
    ensures p.SprayMark? ==> (EndsWith(s, "...") <==> p.truncated)
  {
    match p
    case NoSpray => NoSprayMessage
    case SprayMark(count, shown, truncated) =>
      ReadsRenderedMark(count, shown, truncated);
      EndsWithAfterPrefix(CountPrefix + NatRepr(count), MarkTail(shown, truncated), "...");
      CountPrefix + NatRepr(count) + MarkTail(shown, truncated)
  }

  /** `spray_instruction`. Only the empty list yields the no-spray message. */
  function SprayInstruction(bboxes: seq<Box>): (msg: string)
    ensures msg == NoSprayMessage <==> bboxes == []
  {
    var p := PlanSpray(bboxes);
    var msg := Render(p);
    assert p.SprayMark? ==> msg[0] == 'S' != NoSprayMessage[0];
    msg
  }

  /** The no-spray message reports no count and lists no boxes. */
  lemma NoSprayReadsNothing()
    ensures ReportedRegionCount(NoSprayMessage) == None
    ensures ReadListedBoxes(NoSprayMessage) == None
  {
    assert NoSprayMessage[..|CountPrefix|] != CountPrefix by {
      assert NoSprayMessage[0] != CountPrefix[0];
    }
  }

  /** A count written after the prefix and followed by a non-digit is read back as itself. */
  lemma ReadsRenderedCount(n: nat, tail: string)
    requires tail != [] && !IsDigit(tail[0])
    ensures ReportedRegionCount(CountPrefix + NatRepr(n) + tail) == Some(n)
  {
    Assoc(CountPrefix, NatRepr(n), tail);
    ExpectLiteral(CountPrefix, NatRepr(n) + tail);
    ReadDigitsRoundTrip(n, tail);
  }

  /** The text after the count is read back as the listed boxes. */
  lemma ReadsMarkTail(shown: seq<Box>, truncated: bool)
    ensures var afterLabel := Expect(MarkTail(shown, truncated), RegionsLabel);
      afterLabel.Some? && ReadBoxList(afterLabel.value) == Some((shown, if truncated then "..." else ""))
  {
    var suffix := if truncated then "..." else "";
    assert MarkTail(shown, truncated) == RegionsLabel + ListRepr(shown) + suffix;
    Assoc(RegionsLabel, ListRepr(shown), suffix);
    ExpectLiteral(RegionsLabel, ListRepr(shown) + suffix);
    ListReprRoundTrip(shown, suffix);
  }

  /** The count and the boxes of a rendered mark are read back from its text. */
  lemma ReadsRenderedMark(n: nat, shown: seq<Box>, truncated: bool)
    ensures ReportedRegionCount(CountPrefix + NatRepr(n) + MarkTail(shown, truncated)) == Some(n)
    ensures ReadListedBoxes(CountPrefix + NatRepr(n) + MarkTail(shown, truncated)) == Some(shown)
  {
    var tail := MarkTail(shown, truncated);
    ReadsRenderedCount(n, tail);
    Assoc(CountPrefix, NatRepr(n), tail);
    ExpectLiteral(CountPrefix, NatRepr(n) + tail);
    ReadDigitsRoundTrip(n, tail);
    ReadsMarkTail(shown, truncated);
  }

  /** The message reports `len(bboxes)` regions, and the empty list reports none. */
  lemma ReportsBoxCount(bboxes: seq<Box>)
    ensures ReportedRegionCount(SprayInstruction(bboxes)) ==
      if bboxes == [] then None else Some(|bboxes|)
  {
    if bboxes == [] {
      NoSprayReadsNothing();
    }
  }

  /** The message lists exactly `bboxes[:3]`, in order, and the empty list lists none. */
  lemma ListsFirstBoxes(bboxes: seq<Box>)
    ensures ReadListedBoxes(SprayInstruction(bboxes)) ==
      if bboxes == [] then None else Some(bboxes[..Min(|bboxes|, MaxShown)])
  {
    if bboxes == [] {
      NoSprayReadsNothing();
    }
  }

  /** Appending in front of a string does not change whether it ends with a suffix it can hold. */
  lemma EndsWithAfterPrefix(a: string, t: string, suffix: string)
    requires |suffix| <= |t|
    ensures EndsWith(a + t, suffix) <==> EndsWith(t, suffix)
  {
    assert (a + t)[|a + t| - |suffix|..] == t[|t| - |suffix|..];
  }

  /** The message ends in `...` exactly when more than three boxes were found. */
  lemma EllipsisIffMoreThanShown(bboxes: seq<Box>)
    ensures EndsWith(SprayInstruction(bboxes), "...") <==> |bboxes| > MaxShown
  {
    var msg := SprayInstruction(bboxes);
    if bboxes == [] {
      assert msg[|msg| - 1] == 'y';
    }
  }
}
