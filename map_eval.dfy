/**
 * The per-image scoring of detections against ground truth, `compute_performance_object_detection`,
 * and its callers `map_object_detection_bbox(es)`. The COCO mAP itself comes from a library and is
 * a parameter here (`metric`), as is `ei_tensorflow.utils.convert_box_coords` (`convert`); the
 * model covers what the wrapper does around them: the empty-ground-truth rule, the conversion of
 * both box lists into the library's row layout (labels shifted from 1-based to 0-based), and the
 * rescaling of the raw mAP by the share of classes present in the image.
 */
module MapEval {
  import opened Wrappers
  import opened Boxes

  /** One entry of `y_data['boundingBoxes']`. */
  datatype GroundTruth = GroundTruth(classLabel: int, x: int, y: int, width: int, height: int)

  /** The parts of `y_data` the scoring reads. */
  datatype Sample = Sample(sampleId: int, boundingBoxes: seq<GroundTruth>)

  /** A ground-truth row of the metric library: `[xmin, ymin, xmax, ymax, class_id, difficult, crowd]`. */
  datatype GtRow = GtRow(xmin: real, ymin: real, xmax: real, ymax: real, classId: int, difficult: int, crowd: int)

  /** A prediction row of the metric library: `[xmin, ymin, xmax, ymax, class_id, confidence]`. */
  datatype PredRow = PredRow(xmin: real, ymin: real, xmax: real, ymax: real, classId: int, confidence: real)

  /** The returned `info` dictionary. */
  datatype Performance = Performance(sampleId: int, boxes: seq<Box>, labels: seq<int>, scores: seq<real>, mAP: real)

  datatype MapError =
    | ZeroClasses     // `classes_in_gt / num_classes` with `num_classes == 0`
    | BadInputShape   // `width, height, _num_channels = input_shape` on a shape that is not 3 long
    | MissingSample   // `y_true[ix]` past the end of `y_true`

  /** `convert_y_box_format(box)`: TF-order coordinates reordered and the label made 0-based. */
  function GtRowOf(b: GroundTruth, coords: Box): (r: GtRow)
    ensures r.classId == b.classLabel - 1 && r.difficult == 0 && r.crowd == 0
    ensures ToTfBox(Xyxy(r.xmin, r.ymin, r.xmax, r.ymax)) == coords
  {
    GtRow(coords.xmin, coords.ymin, coords.xmax, coords.ymax, b.classLabel - 1, 0, 0)
  }

  /** `convert_preds_format(p)`. */
  function PredRowOf(d: Detection): (r: PredRow)
    ensures r.classId == d.classId && r.confidence == d.score
    ensures ToTfBox(Xyxy(r.xmin, r.ymin, r.xmax, r.ymax)) == d.box
  {
    PredRow(d.box.xmin, d.box.ymin, d.box.xmax, d.box.ymax, d.classId, d.score)
  }

  /** A prediction row read back as a detection. */
  function DetectionOf(p: PredRow): Detection
  {
    Detection(Box(p.ymin, p.xmin, p.ymax, p.xmax), p.classId, p.confidence)
  }

  /** The prediction rows lose nothing: each one gives back its detection. */
  lemma PredRowRoundTrip(d: Detection)
    ensures DetectionOf(PredRowOf(d)) == d
  {
  }

  function GtRows(bs: seq<GroundTruth>, width: int, height: int, convert: (GroundTruth, int, int) -> Box): (r: seq<GtRow>)
    ensures |r| == |bs| && forall i :: 0 <= i < |bs| ==> r[i] == GtRowOf(bs[i], convert(bs[i], width, height))
  {
    seq(|bs|, i requires 0 <= i < |bs| => GtRowOf(bs[i], convert(bs[i], width, height)))
  }

  function PredRows(ds: seq<Detection>): (r: seq<PredRow>)
    ensures |r| == |ds| && forall i :: 0 <= i < |ds| ==> r[i] == PredRowOf(ds[i])
  {
    seq(|ds|, i requires 0 <= i < |ds| => PredRowOf(ds[i]))
  }

  function GtLabels(bs: seq<GroundTruth>): (r: seq<int>)
    ensures |r| == |bs| && forall i :: 0 <= i < |bs| ==> r[i] == bs[i].classLabel
  {
    seq(|bs|, i requires 0 <= i < |bs| => bs[i].classLabel)
  }

  /** `len(set(labels))`. */
  function DistinctCount(labels: seq<int>): nat
  {
    |set l | l in labels|
  }

  /** A non-empty list has at least one and at most as many distinct labels as entries. */
  lemma {:induction false} DistinctCountBounds(labels: seq<int>)
    ensures DistinctCount(labels) <= |labels|
    ensures labels != [] ==> 1 <= DistinctCount(labels)
  {
    if labels != [] {
      var init := labels[..|labels| - 1];
      var last := labels[|labels| - 1];
      DistinctCountBounds(init);
      assert labels == init + [last];
      assert (set l | l in labels) == (set l | l in init) + {last};
      assert last in (set l | l in labels);
    }
  }

  /** `compute_performance_object_detection(raw_detections, width, height, y_data, num_classes)`. */
  function ComputePerformance(raw: seq<Detection>, width: int, height: int, y: Sample, numClasses: int,
                              convert: (GroundTruth, int, int) -> Box,
                              metric: (seq<PredRow>, seq<GtRow>, int) -> real): (r: Result<Performance, MapError>)
    ensures r.Err? <==> y.boundingBoxes != [] && numClasses == 0
    ensures r.Ok? ==> r.value.sampleId == y.sampleId && Zip3(r.value.boxes, r.value.labels, r.value.scores) == raw
    ensures r.Ok? && y.boundingBoxes == [] ==> r.value.mAP == (if raw == [] then 1.0 else 0.0)
    ensures r.Ok? && y.boundingBoxes != [] ==>
      r.value.mAP * DistinctCount(GtLabels(y.boundingBoxes)) as real
        == metric(PredRows(raw), GtRows(y.boundingBoxes, width, height, convert), numClasses) * numClasses as real
  {
    UnzipZip(raw);
    var boxes, labels, scores := BoxesOf(raw), LabelsOf(raw), ScoresOf(raw);
    if y.boundingBoxes == [] then
      Ok(Performance(y.sampleId, boxes, labels, scores, if raw == [] then 1.0 else 0.0))
    else if numClasses == 0 then
      Err(ZeroClasses)
    else
      var coco := metric(PredRows(raw), GtRows(y.boundingBoxes, width, height, convert), numClasses);
      var classesInGt := DistinctCount(GtLabels(y.boundingBoxes));
      DistinctCountBounds(GtLabels(y.boundingBoxes));
      var maximum := classesInGt as real / numClasses as real;
      ScaleBack(coco, classesInGt as real, numClasses as real);
      Ok(Performance(y.sampleId, boxes, labels, scores, coco / maximum))
  }

  lemma ScaleBack(coco: real, c: real, n: real)
    requires c > 0.0 && n != 0.0
    ensures c / n != 0.0 && (coco / (c / n)) * c == coco * n
  {
    var m := c / n;
    assert m * n == c;
    assert m != 0.0;
    var q := coco / m;
    assert q * m == coco;
    calc {
      q * c;
      q * (m * n);
      (q * m) * n;
      coco * n;
    }
  }

  /** The rescaling lifts the best mAP an image can get back to 1: a raw mAP equal to the share of
      classes present, `classes_in_gt / num_classes`, scores 1. Between 0 and that share it scores
      between 0 and 1. */
  lemma RescaledRange(raw: seq<Detection>, width: int, height: int, y: Sample, numClasses: int,
                      convert: (GroundTruth, int, int) -> Box, metric: (seq<PredRow>, seq<GtRow>, int) -> real)
    requires y.boundingBoxes != [] && numClasses > 0
    ensures var coco := metric(PredRows(raw), GtRows(y.boundingBoxes, width, height, convert), numClasses);
      var share := DistinctCount(GtLabels(y.boundingBoxes)) as real / numClasses as real;
      var m := ComputePerformance(raw, width, height, y, numClasses, convert, metric).value.mAP;
      && (coco == share ==> m == 1.0)
      && (0.0 <= coco <= share ==> 0.0 <= m <= 1.0)
  {
    var coco := metric(PredRows(raw), GtRows(y.boundingBoxes, width, height, convert), numClasses);
    var c := DistinctCount(GtLabels(y.boundingBoxes)) as real;
    var n := numClasses as real;
    DistinctCountBounds(GtLabels(y.boundingBoxes));
    var m := ComputePerformance(raw, width, height, y, numClasses, convert, metric).value.mAP;
    assert m * c == coco * n;
    RescaleArithmetic(m, coco, c, n);
  }

  /** The arithmetic of RescaledRange: `m * c == coco * n` makes `m` the ratio of `coco` to `c / n`. */
  lemma RescaleArithmetic(m: real, coco: real, c: real, n: real)
    requires c > 0.0 && n > 0.0 && m * c == coco * n
    ensures coco == c / n ==> m == 1.0
    ensures 0.0 <= coco <= c / n ==> 0.0 <= m <= 1.0
  {
    var share := c / n;
    assert share * n == c;
    if 0.0 <= coco <= share {
      assert 0.0 <= coco * n <= share * n by {
        assert (share - coco) * n >= 0.0;
        assert coco * n >= 0.0;
      }
      UnitFromProduct(m, c);
    }
    if coco == share {
      assert (m - 1.0) * c == 0.0;
    }
  }

  lemma UnitFromProduct(m: real, c: real)
    requires c > 0.0 && 0.0 <= m * c <= c
    ensures 0.0 <= m <= 1.0
  {
  }

  /** With as many classes in the image as the model knows, the raw mAP is kept as it is. */
  lemma AllClassesPresent(raw: seq<Detection>, width: int, height: int, y: Sample, numClasses: int,
                          convert: (GroundTruth, int, int) -> Box, metric: (seq<PredRow>, seq<GtRow>, int) -> real)
    requires y.boundingBoxes != [] && numClasses == DistinctCount(GtLabels(y.boundingBoxes))
    ensures var r := ComputePerformance(raw, width, height, y, numClasses, convert, metric);
      r.Ok? && r.value.mAP == metric(PredRows(raw), GtRows(y.boundingBoxes, width, height, convert), numClasses)
  {
    DistinctCountBounds(GtLabels(y.boundingBoxes));
    var m := ComputePerformance(raw, width, height, y, numClasses, convert, metric).value.mAP;
    var coco := metric(PredRows(raw), GtRows(y.boundingBoxes, width, height, convert), numClasses);
    var n := numClasses as real;
    assert m * n == coco * n;
    assert (m - coco) * n == 0.0;
  }

  /** `map_object_detection_bbox(y_prediction, y_true, minimum_confidence_rating, width, height, num_classes)`. */
  function MapObjectDetectionBbox(prediction: seq<Detection>, y: Sample, minimum: real, width: int, height: int,
                                  numClasses: int, convert: (GroundTruth, int, int) -> Box,
                                  metric: (seq<PredRow>, seq<GtRow>, int) -> real): (r: Result<Performance, MapError>)
    ensures r == ComputePerformance(FilterByScore(prediction, minimum), width, height, y, numClasses, convert, metric)
    ensures r.Ok? ==> Zip3(r.value.boxes, r.value.labels, r.value.scores) == FilterByScore(prediction, minimum)
    ensures r.Ok? ==> forall d :: d in Zip3(r.value.boxes, r.value.labels, r.value.scores) <==> d in prediction && d.score >= minimum
    ensures r.Ok? ==> forall d :: multiset(Zip3(r.value.boxes, r.value.labels, r.value.scores))[d]
                                  == if d.score >= minimum then multiset(prediction)[d] else 0
  {
    ComputePerformance(FilterByScore(prediction, minimum), width, height, y, numClasses, convert, metric)
  }

  /** Sample `ix` of `map_object_detection_bboxes`: a missing ground truth, or its scores. */
  function ScoreSample(predictions: seq<seq<Detection>>, yTrue: seq<Sample>, ix: nat, minimum: real, width: int,
                       height: int, numClasses: int, convert: (GroundTruth, int, int) -> Box,
                       metric: (seq<PredRow>, seq<GtRow>, int) -> real): Result<Performance, MapError>
    requires ix < |predictions|
  {
    if ix >= |yTrue| then Err(MissingSample)
    else MapObjectDetectionBbox(predictions[ix], yTrue[ix], minimum, width, height, numClasses, convert, metric)
  }

  /** What each sample of `map_object_detection_bboxes` would give on its own. */
  function Outcomes(predictions: seq<seq<Detection>>, yTrue: seq<Sample>, minimum: real, width: int, height: int,
                    numClasses: int, convert: (GroundTruth, int, int) -> Box,
                    metric: (seq<PredRow>, seq<GtRow>, int) -> real): seq<Result<Performance, MapError>>
  {
    seq(|predictions|, ix requires 0 <= ix < |predictions| =>
      ScoreSample(predictions, yTrue, ix, minimum, width, height, numClasses, convert, metric))
  }

  /** A loop that appends each outcome's value and stops at the first error. */
  function Collect<T, E>(rs: seq<Result<T, E>>): Result<seq<T>, E>
  {
    if rs == [] then Ok([])
    else
      var before :- Collect(rs[..|rs| - 1]);
      var x :- rs[|rs| - 1];
      Ok(before + [x])
  }

  /** `rs[ix]` is the first error among the outcomes, and it is `e`. */
  predicate FirstError<T(==), E(==)>(rs: seq<Result<T, E>>, ix: nat, e: E)
  {
    ix < |rs| && rs[ix] == Err(e) && forall j :: 0 <= j < ix ==> rs[j].Ok?
  }

  /** Collecting succeeds exactly when every outcome does, and then holds their values in order;
      otherwise it fails with the first error. */
  lemma {:induction false} CollectMeaning<T, E>(rs: seq<Result<T, E>>)
    ensures var r := Collect(rs);
      && (r.Ok? <==> forall ix :: 0 <= ix < |rs| ==> rs[ix].Ok?)
      && (r.Ok? ==> |r.value| == |rs| && forall ix :: 0 <= ix < |rs| ==> rs[ix] == Ok(r.value[ix]))
      && (r.Err? ==> exists ix :: FirstError(rs, ix, r.error))
  {
    if rs != [] {
      var n := |rs| - 1;
      CollectMeaning(rs[..n]);
      var before := Collect(rs[..n]);
      if before.Err? {
        var ix :| FirstError(rs[..n], ix, before.error);
        assert FirstError(rs, ix, before.error);
      } else if rs[n].Err? {
        assert FirstError(rs, n, rs[n].error);
      }
    }
  }

  /** Once collecting a prefix fails, collecting any longer prefix fails the same way. */
  lemma {:induction false} CollectStable<T, E>(rs: seq<Result<T, E>>, n: nat)
    requires n <= |rs|
    requires Collect(rs[..n]).Err?
    ensures Collect(rs) == Collect(rs[..n])
  {
    if n < |rs| {
      var m := |rs| - 1;
      assert rs[..m][..n] == rs[..n];
      CollectStable(rs[..m], n);
    } else {
      assert rs[..n] == rs;
    }
  }

  /** `map_object_detection_bboxes(predictions, y_true, minimum_confidence_rating, input_shape, num_classes)`:
      `width, height` are the first two entries of the shape, and the minimum defaults to 0. The
      result is the samples' outcomes collected in order up to the first that raises. */
  method MapObjectDetectionBboxes(predictions: seq<seq<Detection>>, yTrue: seq<Sample>, minimum: Option<real>,
                                  inputShape: seq<int>, numClasses: int, convert: (GroundTruth, int, int) -> Box,
                                  metric: (seq<PredRow>, seq<GtRow>, int) -> real)
    returns (r: Result<seq<Performance>, MapError>)
    ensures |inputShape| != 3 ==> r == Err(BadInputShape)
    ensures |inputShape| == 3 ==>
      r == Collect(Outcomes(predictions, yTrue, minimum.GetOr(0.0), inputShape[0], inputShape[1], numClasses, convert, metric))
  {
    if |inputShape| != 3 {
      return Err(BadInputShape);
    }
    var width, height := inputShape[0], inputShape[1];
    var threshold := minimum.GetOr(0.0);
    ghost var outcomes := Outcomes(predictions, yTrue, threshold, width, height, numClasses, convert, metric);
    var newPredictions: seq<Performance> := [];
    for ix := 0 to |predictions|
      invariant Collect(outcomes[..ix]) == Ok(newPredictions)
    {
      assert outcomes[..ix + 1][..ix] == outcomes[..ix];
      if ix >= |yTrue| {
        CollectStable(outcomes, ix + 1);
        return Err(MissingSample);
      }
      var scores := MapObjectDetectionBbox(predictions[ix], yTrue[ix], threshold, width, height, numClasses, convert, metric);
      assert outcomes[ix] == scores;
      if scores.Err? {
        CollectStable(outcomes, ix + 1);
        return Err(scores.error);
      }
      newPredictions := newPredictions + [scores.value];
    }
    assert outcomes[..|predictions|] == outcomes;
    return Ok(newPredictions);
  }

  /** The batch succeeds exactly when every sample has a ground truth and scores, holds then each
      sample's performance in order, and otherwise fails with the error of the first sample that
      raises. */
  lemma MapBboxesMeaning(predictions: seq<seq<Detection>>, yTrue: seq<Sample>, minimum: real, width: int, height: int,
                         numClasses: int, convert: (GroundTruth, int, int) -> Box,
                         metric: (seq<PredRow>, seq<GtRow>, int) -> real)
    ensures var os := Outcomes(predictions, yTrue, minimum, width, height, numClasses, convert, metric);
      var r := Collect(os);
      && (r.Ok? <==> |predictions| <= |yTrue| && forall ix :: 0 <= ix < |predictions| ==> os[ix].Ok?)
      && (r.Ok? ==> |r.value| == |predictions|)
      && (r.Ok? ==> forall ix :: 0 <= ix < |predictions| ==>
            Ok(r.value[ix]) == MapObjectDetectionBbox(predictions[ix], yTrue[ix], minimum, width, height, numClasses, convert, metric))
      && (r.Err? ==> exists ix :: FirstError(os, ix, r.error))
  {
    var os := Outcomes(predictions, yTrue, minimum, width, height, numClasses, convert, metric);
    CollectMeaning(os);
    if |predictions| > |yTrue| {
      assert os[|yTrue|] == Err(MissingSample);
    }
  }
}
