/**
 * The YOLO-Pro and YOLOv11 decoders `process_output_yolo_pro` and `process_output_yolov11`:
 * split the output into corner boxes and per-class scores, run the batched top-K extraction with a
 * threshold of the minimum confidence (0.01 by default) and at most 1000 detections, list all 1000
 * slots of the single image as `(box, class, confidence)` (padding included) and run the
 * per-class NMS with an IoU threshold of 0.4.
 */
module YoloPro {
  import opened Wrappers
  import opened Boxes
  import opened Nms
  import opened TopK

  const DefaultMinimum: real := 0.01
  const MaxDetections: nat := 1000
  const IouThreshold: real := 0.4

  /** The slot `yolo_pro_adapt_for_studio` makes of the -1 padding. */
  const Padding: Detection := Detection(ToTfBox(FillBox), Fill, Fill as real)

  /** The loop of `yolo_pro_adapt_for_studio` over one image's rows: `[[ymin, xmin, ymax, xmax], cls, conf]`. */
  function AdaptRows(bs: seq<Xyxy>, cs: seq<real>, ks: seq<int>): (r: seq<Detection>)
    requires |cs| <= |bs| && |cs| <= |ks|
    ensures |r| == |cs| && forall i :: 0 <= i < |cs| ==> r[i] == Detection(ToTfBox(bs[i]), ks[i], cs[i])
  {
    seq(|cs|, i requires 0 <= i < |cs| => Detection(ToTfBox(bs[i]), ks[i], cs[i]))
  }

  /** `yolo_pro_adapt_for_studio(decoded)`. */
  function AdaptForStudio(b: Batched): (r: Result<seq<Detection>, TopKError>)
    ensures r.Ok? <==> |b.boxes| == |b.classes| == |b.confidence| == 1 && |b.boxes[0]| > 0
                       && |b.confidence[0]| <= |b.boxes[0]| && |b.confidence[0]| <= |b.classes[0]|
    ensures r.Ok? ==> r.value == AdaptRows(b.boxes[0], b.confidence[0], b.classes[0])
  {
    if !(|b.boxes| == |b.classes| && |b.classes| == |b.confidence| && |b.confidence| == 1) then Err(NotOneImage)
    else if |b.boxes[0]| == 0 then Err(NoSlots)
    else if |b.confidence[0]| > |b.boxes[0]| || |b.confidence[0]| > |b.classes[0]| then Err(ShapeMismatch)
    else Ok(AdaptRows(b.boxes[0], b.confidence[0], b.classes[0]))
  }

  /** The listed slots of one image: its detections, then padding up to `maxDetections`. */
  function StudioList(t: TopKResult, maxDetections: nat): (r: seq<Detection>)
    ensures |r| == maxDetections
  {
    seq(maxDetections, i requires 0 <= i < maxDetections =>
      if i < |t.boxes| && i < |t.confidence| && i < |t.classes| then Detection(ToTfBox(t.boxes[i]), t.classes[i], t.confidence[i])
      else Padding)
  }

  /** What the YOLO-Pro tail computes on the image's boxes and scores. */
  function YoloProSpec(boxes: seq<Xyxy>, scores: seq<seq<real>>, imgSize: real, minimum: real): seq<Detection>
    requires |scores| == |boxes|
  {
    TopKFailures(boxes, scores, minimum, MaxDetections);
    NmsSpec(StudioList(TopKSpec(boxes, scores, minimum, MaxDetections).value, MaxDetections), imgSize, IouThreshold)
  }

  /** The adapted list of a batch of one image is that image's `StudioList`. */
  lemma AdaptPadded(t: TopKResult, b: Batched, boxes: seq<Xyxy>, scores: seq<seq<real>>, threshold: real)
    requires TopKSpec(boxes, scores, threshold, MaxDetections) == Ok(t)
    requires |b.boxes| == |b.classes| == |b.confidence| == |b.numDetections| == 1
    requires PaddedRow(Ok(t), MaxDetections, b.numDetections[0], b.boxes[0], b.confidence[0], b.classes[0])
    ensures AdaptForStudio(b) == Ok(StudioList(t, MaxDetections))
  {
    TopKShape(boxes, scores, threshold, MaxDetections);
    var r := AdaptRows(b.boxes[0], b.confidence[0], b.classes[0]);
    var l := StudioList(t, MaxDetections);
    forall i | 0 <= i < MaxDetections ensures r[i] == l[i] {
      if i >= t.numDetections {
        assert b.boxes[0][i] == FillBox && b.confidence[0][i] == Fill as real && b.classes[0][i] == Fill;
      }
    }
    assert r == l;
  }

  /** Every row has at least the four box coordinates. */
  predicate Wide(output: seq<seq<seq<real>>>)
  {
    forall i, a :: 0 <= i < |output| && 0 <= a < |output[i]| ==> |output[i][a]| >= 4
  }

  /** `output_data[..., :4]` read as corner boxes. */
  function BoxesOfRows(rows: seq<seq<real>>): (r: seq<Xyxy>)
    requires forall a :: 0 <= a < |rows| ==> |rows[a]| >= 4
    ensures |r| == |rows| && forall a :: 0 <= a < |rows| ==> r[a] == Xyxy(rows[a][0], rows[a][1], rows[a][2], rows[a][3])
  {
    seq(|rows|, a requires 0 <= a < |rows| => Xyxy(rows[a][0], rows[a][1], rows[a][2], rows[a][3]))
  }

  /** `output_data[..., 4:]`. */
  function ScoresOfRows(rows: seq<seq<real>>): (r: seq<seq<real>>)
    requires forall a :: 0 <= a < |rows| ==> |rows[a]| >= 4
    ensures |r| == |rows| && forall a :: 0 <= a < |rows| ==> r[a] == rows[a][4..]
  {
    seq(|rows|, a requires 0 <= a < |rows| => rows[a][4..])
  }

  /** The common tail of both decoders: top-K, listing, NMS. */
  method TopKThenNms(boxes: seq<seq<Xyxy>>, scores: seq<seq<seq<real>>>, imgSize: real, minimum: real)
    returns (r: Result<seq<Detection>, TopKError>)
    requires |boxes| == |scores| && forall i :: 0 <= i < |boxes| ==> |boxes[i]| == |scores[i]|
    ensures r.Err? <==> |boxes| != 1
    ensures r.Err? ==> r.error == NotOneImage
    ensures r.Ok? ==> r.value == YoloProSpec(boxes[0], scores[0], imgSize, minimum)
  {
    forall i | 0 <= i < |boxes| ensures TopKSpec(boxes[i], scores[i], minimum, MaxDetections).Ok? {
      TopKFailures(boxes[i], scores[i], minimum, MaxDetections);
    }
    NoneFail(boxes, scores, minimum);
    var decoded := TopKResults(boxes, scores, minimum, MaxDetections);
    var b := decoded.value;
    if |boxes| != 1 {
      return Err(NotOneImage);
    }
    AdaptPadded(TopKSpec(boxes[0], scores[0], minimum, MaxDetections).value, b, boxes[0], scores[0], minimum);
    var raw := AdaptForStudio(b).value;
    var nms := ObjectDetectionNms(raw, imgSize, IouThreshold);
    return Ok(nms);
  }

  /** With every image well shaped, no image of the batch fails its extraction. */
  lemma NoneFail(boxes: seq<seq<Xyxy>>, scores: seq<seq<seq<real>>>, minimum: real)
    requires |boxes| == |scores|
    requires forall i :: 0 <= i < |boxes| ==> TopKSpec(boxes[i], scores[i], minimum, MaxDetections).Ok?
    ensures FirstFailure(Errors(ImageResults(boxes, scores, minimum, MaxDetections)), |boxes|).None?
  {
    var rs := ImageResults(boxes, scores, minimum, MaxDetections);
    var os := Errors(rs);
    forall i | 0 <= i < |boxes| ensures os[i].None? {
      ImageResultsUpToAt(boxes, scores, minimum, MaxDetections, |boxes|, i);
    }
    AllNoneNoFailure(os, |boxes|);
  }

  lemma {:induction false} AllNoneNoFailure(os: seq<Option<TopKError>>, n: nat)
    requires n <= |os| && forall i :: 0 <= i < n ==> os[i].None?
    ensures FirstFailure(os, n).None?
  {
    if n > 0 {
      AllNoneNoFailure(os, n - 1);
    }
  }

  /** `process_output_yolo_pro(output_data, img_size, minimum_confidence_rating)`. */
  method ProcessOutputYoloPro(output: seq<seq<seq<real>>>, imgSize: real, minimum: Option<real>)
    returns (r: Result<seq<Detection>, TopKError>)
    ensures r.Err? <==> !Wide(output) || |output| != 1
    ensures !Wide(output) ==> r == Err(ShapeMismatch)
    ensures Wide(output) && |output| != 1 ==> r == Err(NotOneImage)
    ensures r.Ok? ==> r.value == YoloProSpec(BoxesOfRows(output[0]), ScoresOfRows(output[0]), imgSize, minimum.GetOr(DefaultMinimum))
  {
    var threshold := minimum.GetOr(DefaultMinimum);
    if !Wide(output) {
      return Err(ShapeMismatch);
    }
    var boxes := seq(|output|, i requires 0 <= i < |output| => BoxesOfRows(output[i]));
    var scores := seq(|output|, i requires 0 <= i < |output| => ScoresOfRows(output[i]));
    r := TopKThenNms(boxes, scores, imgSize, threshold);
  }

  /** Every detection the YOLO-Pro tail returns comes from a passing (anchor, class) pair: its
      box, class and score are that anchor's box, that class and that score, the score is above
      the minimum confidence, and no -1 padding slot survives. */
  lemma YoloProDetections(boxes: seq<Xyxy>, scores: seq<seq<real>>, imgSize: real, minimum: real)
    requires |scores| == |boxes|
    ensures forall d :: d in YoloProSpec(boxes, scores, imgSize, minimum) ==>
      d != Padding && d.score > minimum && d.score > ScoreFloor &&
      exists c :: IsCandidate(scores, minimum, c) && d == Detection(ToTfBox(boxes[c.anchor]), c.cls, c.score)
  {
    TopKFailures(boxes, scores, minimum, MaxDetections);
    var t := TopKSpec(boxes, scores, minimum, MaxDetections).value;
    var l := StudioList(t, MaxDetections);
    var top := Selected(scores, minimum, MaxDetections);
    TopKShape(boxes, scores, minimum, MaxDetections);
    SelectedAreCandidates(scores, minimum, MaxDetections);
    NmsSubset(l, imgSize, IouThreshold);
    forall d | d in YoloProSpec(boxes, scores, imgSize, minimum)
      ensures d != Padding && d.score > minimum && d.score > ScoreFloor
      ensures exists c :: IsCandidate(scores, minimum, c) && d == Detection(ToTfBox(boxes[c.anchor]), c.cls, c.score)
    {
      var i :| 0 <= i < |l| && l[i] == d;
      assert i < t.numDetections;
      assert IsCandidate(scores, minimum, top[i]);
      assert d == Detection(ToTfBox(boxes[top[i].anchor]), top[i].cls, top[i].score);
    }
  }

  /** A two-dimensional array: every row has the length of the first. */
  predicate Rectangular(m: seq<seq<real>>)
  {
    forall i :: 0 <= i < |m| ==> |m[i]| == |m[0]|
  }

  /** `.T` of a two-dimensional array. */
  function Transpose(m: seq<seq<real>>): (t: seq<seq<real>>)
    requires Rectangular(m)
    ensures |t| == (if m == [] then 0 else |m[0]|)
    ensures forall a :: 0 <= a < |t| ==> |t[a]| == |m|
    ensures forall a, c :: 0 <= a < |t| && 0 <= c < |m| ==> t[a][c] == m[c][a]
  {
    var n := if m == [] then 0 else |m[0]|;
    seq(n, a requires 0 <= a < n => seq(|m|, c requires 0 <= c < |m| => m[c][a]))
  }

  /** Transposing twice gives back an array with at least one column. */
  lemma TransposeTwice(m: seq<seq<real>>)
    requires Rectangular(m) && m != [] && |m[0]| > 0
    ensures Rectangular(Transpose(m)) && Transpose(Transpose(m)) == m
  {
    var t := Transpose(m);
    assert |t[0]| == |m|;
    var tt := Transpose(t);
    assert |tt| == |m|;
    forall c | 0 <= c < |m| ensures tt[c] == m[c] {
      assert |tt[c]| == |t| == |m[0]| == |m[c]|;
    }
  }

  /** One anchor's box of `process_output_yolov11`: centre form to corners, then divided by the
      image size unless the model already gives normalised coordinates. */
  function CornerOfRow(row: seq<real>, imgSize: real, normalized: bool): (q: Xyxy)
    requires |row| >= 4 && (normalized || imgSize != 0.0)
    ensures normalized ==> q == CenterToCorner(Xywh(row[0], row[1], row[2], row[3]))
    ensures !normalized ==> q == NormalizeXyxy(CenterToCorner(Xywh(row[0], row[1], row[2], row[3])), imgSize, imgSize)
  {
    var q := CenterToCorner(Xywh(row[0], row[1], row[2], row[3]));
    if normalized then q else NormalizeXyxy(q, imgSize, imgSize)
  }

  function Yolov11Boxes(rows: seq<seq<real>>, imgSize: real, normalized: bool): (r: seq<Xyxy>)
    requires forall a :: 0 <= a < |rows| ==> |rows[a]| >= 4
    requires normalized || imgSize != 0.0
    ensures |r| == |rows| && forall a :: 0 <= a < |rows| ==> r[a] == CornerOfRow(rows[a], imgSize, normalized)
  {
    seq(|rows|, a requires 0 <= a < |rows| => CornerOfRow(rows[a], imgSize, normalized))
  }

  /** `process_output_yolov11(output_data, img_size, is_coord_normalized, minimum_confidence_rating)`
      on the `(4 + classes, anchors)` output without its batch axis. With a single anchor
      `np.squeeze` drops the anchor axis too, so the re-expanded array has only two axes and
      `output_data[:,:,:4]` raises; with fewer than four channels a box coordinate is missing. */
  method ProcessOutputYolov11(channels: seq<seq<real>>, imgSize: real, normalized: bool, minimum: Option<real>)
    returns (r: Result<seq<Detection>, TopKError>)
    requires Rectangular(channels)
    requires normalized || imgSize != 0.0
    ensures r.Err? <==> |channels| < 4 || |channels[0]| == 1
    ensures r.Err? ==> r.error == ShapeMismatch
    ensures r.Ok? ==> var rows := Transpose(channels);
      r.value == YoloProSpec(Yolov11Boxes(rows, imgSize, normalized), ScoresOfRows(rows), imgSize, minimum.GetOr(DefaultMinimum))
  {
    var threshold := minimum.GetOr(DefaultMinimum);
    if |channels| < 4 || |channels[0]| == 1 {
      return Err(ShapeMismatch);
    }
    var rows := Transpose(channels);
    var boxes := Yolov11Boxes(rows, imgSize, normalized);
    var scores := ScoresOfRows(rows);
    r := TopKThenNms([boxes], [scores], imgSize, threshold);
  }
}
