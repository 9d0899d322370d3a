/** How an episode document becomes the scene's flat shot list: one row per
    shot, segment by segment, each row carrying its segment's id, number and
    title and a display label such as `SC03 - Shot 2`. */
module Episode {
  import opened Common
  import opened Text
  import opened SceneState

  /** The label of a shot: `SC` and the two-digit segment number, then
      ` - Shot ` and the shot number as the service sent it (`0` when it is
      missing). */
  function ShotLabel(segmentNumber: int, shotNumber: Option<ShotNumber>): string {
    "SC" + Pad2(segmentNumber) + " - Shot " + ShotNumberText(shotNumber.GetOr(NumberedShot(0)))
  }

  /** The label can be read back: for a non-negative segment number it is
      `SC`, the digits spelling that number (padded with one zero when there
      is only one), ` - Shot ` and the shot number's text. */
  lemma ShotLabelReadsBack(segmentNumber: nat, shotNumber: Option<ShotNumber>)
    ensures exists digits: string ::
      && |digits| >= 2
      // Zero-padded only to two digits; a longer number has no leading zero.
      && |digits| == (if segmentNumber < 10 then 2 else |Digits(segmentNumber)|)
      && (digits[0] == '0' <==> segmentNumber < 10)
      && (forall k :: 0 <= k < |digits| ==> IsDigit(digits[k]))
      && DigitsValue(digits) == segmentNumber
      && ShotLabel(segmentNumber, shotNumber)
         == "SC" + digits + " - Shot " + ShotNumberText(shotNumber.GetOr(NumberedShot(0)))
  {
    Pad2RoundTrip(segmentNumber);
    var digits := Pad2(segmentNumber);
    assert ShotLabel(segmentNumber, shotNumber)
        == "SC" + digits + " - Shot " + ShotNumberText(shotNumber.GetOr(NumberedShot(0)));
  }

  /** `d.get(key, "")` on the image-generation thread. */
  function Lookup(m: map<string, string>, key: string): string {
    if key in m then m[key] else ""
  }

  /** The row the loader adds for `shot` of `seg`, with the loader's defaults
      for missing keys. */
  function MakeItem(seg: SegmentDoc, shot: ShotDoc): ShotItem
  {
    var segmentNumber := seg.segmentNumber.GetOr(0);
    ShotItem(
      shotId := shot.id.GetOr(""),
      shotLabel := ShotLabel(segmentNumber, shot.shotNumber),
      audio := shot.audio.GetOr(""),
      visual := shot.visual.GetOr(""),
      mainImageUrl := shot.imageUrl.GetOr(""),
      startFrameUrl := Lookup(shot.imageThread, "startFrame"),
      endFrameUrl := Lookup(shot.imageThread, "endFrame"),
      segmentId := seg.id.GetOr(""),
      segmentNumber := segmentNumber,
      segmentTitle := seg.title.GetOr(""))
  }

  /** The rows of one segment, in the order of its shots. */
  function SegmentRows(seg: SegmentDoc): (rows: seq<ShotItem>)
    ensures |rows| == |seg.shots|
    ensures forall j :: 0 <= j < |seg.shots| ==> rows[j] == MakeItem(seg, seg.shots[j])
  {
    seq(|seg.shots|, j requires 0 <= j < |seg.shots| => MakeItem(seg, seg.shots[j]))
  }

  /** The shot list after a load: the rows of every segment, in order. */
  function Flatten(segs: seq<SegmentDoc>): seq<ShotItem>
    decreases |segs|
  {
    if segs == [] then [] else SegmentRows(segs[0]) + Flatten(segs[1..])
  }

  /** The number of shots in the document. */
  function TotalShots(segs: seq<SegmentDoc>): nat
    decreases |segs|
  {
    if segs == [] then 0 else |segs[0].shots| + TotalShots(segs[1..])
  }

  /** The position of segment `i`'s first row. */
  function Offset(segs: seq<SegmentDoc>, i: nat): nat
    requires i <= |segs|
  {
    TotalShots(segs[..i])
  }

  /** One row per shot of the document. */
  lemma {:induction false} FlattenLength(segs: seq<SegmentDoc>)
    ensures |Flatten(segs)| == TotalShots(segs)
    decreases |segs|
  {
    if segs != [] {
      FlattenLength(segs[1..]);
    }
  }

  lemma {:induction false} OffsetStep(segs: seq<SegmentDoc>, i: nat)
    requires 0 < i <= |segs|
    ensures Offset(segs, i) == |segs[0].shots| + Offset(segs[1..], i - 1)
  {
    assert segs[..i][0] == segs[0];
    assert segs[..i][1..] == segs[1..][..i - 1];
  }

  lemma {:induction false} OffsetBound(segs: seq<SegmentDoc>, i: nat)
    requires i < |segs|
    ensures Offset(segs, i) + |segs[i].shots| <= TotalShots(segs)
    decreases i
  {
    if i == 0 {
      assert segs[..0] == [];
    } else {
      OffsetStep(segs, i);
      OffsetBound(segs[1..], i - 1);
    }
  }

  /** Row `Offset(segs, i) + j` of the shot list is shot `j` of segment `i`:
      the list is the segments' shots laid end to end, nothing reordered,
      dropped or repeated. */
  lemma {:induction false} FlattenIndex(segs: seq<SegmentDoc>, i: nat, j: nat)
    requires i < |segs| && j < |segs[i].shots|
    ensures Offset(segs, i) + j < |Flatten(segs)|
    ensures Flatten(segs)[Offset(segs, i) + j] == MakeItem(segs[i], segs[i].shots[j])
    decreases i
  {
    FlattenLength(segs);
    OffsetBound(segs, i);
    var rows := SegmentRows(segs[0]);
    var rest := Flatten(segs[1..]);
    assert Flatten(segs) == rows + rest;
    if i == 0 {
      assert segs[..0] == [];
      assert Flatten(segs)[j] == rows[j];
    } else {
      OffsetStep(segs, i);
      var k := Offset(segs[1..], i - 1) + j;
      FlattenIndex(segs[1..], i - 1, j);
      assert (rows + rest)[|rows| + k] == rest[k];
    }
  }

  /** Every row belongs to a segment of the document: its segment fields are
      that segment's, with the loader's defaults. */
  lemma {:induction false} FlattenRowsFromSegments(segs: seq<SegmentDoc>, n: nat)
    requires n < |Flatten(segs)|
    ensures exists i, j :: 0 <= i < |segs| && 0 <= j < |segs[i].shots|
                           && Flatten(segs)[n] == MakeItem(segs[i], segs[i].shots[j])
    decreases |segs|
  {
    var rows := SegmentRows(segs[0]);
    var rest := Flatten(segs[1..]);
    assert Flatten(segs) == rows + rest;
    if n < |rows| {
      assert Flatten(segs)[n] == MakeItem(segs[0], segs[0].shots[n]);
    } else {
      assert Flatten(segs)[n] == rest[n - |rows|];
      FlattenRowsFromSegments(segs[1..], n - |rows|);
      var i, j :| 0 <= i < |segs[1..]| && 0 <= j < |segs[1..][i].shots|
                  && rest[n - |rows|] == MakeItem(segs[1..][i], segs[1..][i].shots[j]);
      assert segs[1..][i] == segs[i + 1];
      assert Flatten(segs)[n] == MakeItem(segs[i + 1], segs[i + 1].shots[j]);
    }
  }
}
