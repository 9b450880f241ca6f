/**
 * The YOLOv5 decoder `process_output_yolov5`: rows `[x, y, w, h, conf, class scores...]` of the
 * first batch are filtered by confidence, converted from centre to corner format (divided by
 * the image size for the version-5 export, which emits pixels), reordered into
 * `[ymin, xmin, ymax, xmax]` and passed through the per-label suppressor with IoU 0.4.
 */
module Yolov5 {
  import opened Wrappers
  import opened Boxes
  import Nms

  /** One prediction row. */
  datatype Row = Row(x: real, y: real, w: real, h: real, conf: real, classScores: seq<real>)

  datatype DecodeError =
    | UnsupportedVersion   // `raise Exception('... requires either version 5 or 6')`
    | NoBatch              // `output_data[0]` on an empty output
    | EmptyClassScores     // `argmax` of an empty class-score row
    | UnsizedScores        // one row only: `np.squeeze` leaves a 0-d array and `len(scores)` fails

  /** `minimum_confidence_rating` when the caller passes None. */
  const DefaultMinimum: real := 0.01

  /** The IoU threshold `process_output_yolov5` hands to the suppressor. */
  const IouThreshold: real := 0.4

  /** `k` is where the first maximum of `xs` sits. */
  predicate IsFirstArgmax(xs: seq<real>, k: nat)
  {
    k < |xs| && (forall i :: 0 <= i < |xs| ==> xs[i] <= xs[k]) && (forall i :: 0 <= i < k ==> xs[i] < xs[k])
  }

  /** `np.argmax`: the index of the first maximum. */
  function Argmax(xs: seq<real>): (k: nat)
    requires xs != []
    ensures IsFirstArgmax(xs, k)
  {
    if |xs| == 1 then 0
    else
      var k := Argmax(xs[..|xs| - 1]);
      if xs[|xs| - 1] > xs[k] then |xs| - 1 else k
  }

  /** There is only one first maximum, so `Argmax` is pinned down by its contract. */
  lemma FirstArgmaxUnique(xs: seq<real>, k1: nat, k2: nat)
    requires IsFirstArgmax(xs, k1) && IsFirstArgmax(xs, k2)
    ensures k1 == k2
  {
    var a, b := xs[k1], xs[k2];
    assert a <= b && b <= a;
    assert k1 < k2 ==> a < b;
    assert k2 < k1 ==> b < a;
  }

  /** `yolov5_class_filter`: the best class of every row. */
  method ClassFilter(rows: seq<Row>) returns (r: Result<seq<nat>, DecodeError>)
    ensures r.Ok? <==> forall i :: 0 <= i < |rows| ==> rows[i].classScores != []
    ensures r.Err? ==> r.error == EmptyClassScores
    ensures r.Ok? ==> |r.value| == |rows|
    ensures r.Ok? ==> forall i :: 0 <= i < |rows| ==> IsFirstArgmax(rows[i].classScores, r.value[i])
  {
    var classes: seq<nat> := [];
    for i := 0 to |rows|
      invariant |classes| == i
      invariant forall j :: 0 <= j < i ==> rows[j].classScores != [] && IsFirstArgmax(rows[j].classScores, classes[j])
    {
      if rows[i].classScores == [] {
        return Err(EmptyClassScores);
      }
      classes := classes + [Argmax(rows[i].classScores)];
    }
    return Ok(classes);
  }

  /** `minimum <= score <= 1.0`. */
  predicate Passes(row: Row, minimum: real)
  {
    minimum <= row.conf <= 1.0
  }

  /** The corners of one row, divided by the image size for version 5. */
  function RowBox(row: Row, width: real, height: real, version: int): (b: Box)
    requires version == 5 ==> width != 0.0 && height != 0.0
    ensures version != 5 ==> b.xmax - b.xmin == row.w && b.xmin + b.xmax == 2.0 * row.x
    ensures version != 5 ==> b.ymax - b.ymin == row.h && b.ymin + b.ymax == 2.0 * row.y
    ensures version == 5 ==> (b.xmax - b.xmin) * width == row.w && (b.xmin + b.xmax) * width == 2.0 * row.x
    ensures version == 5 ==> (b.ymax - b.ymin) * height == row.h && (b.ymin + b.ymax) * height == 2.0 * row.y
  {
    var q := CenterToCorner(Xywh(row.x, row.y, row.w, row.h));
    if version == 5 then ToTfBox(NormalizeXyxy(q, width, height)) else ToTfBox(q)
  }

  /** The decoded candidates before suppression: one triple per passing row, in row order. */
  function Decode(rows: seq<Row>, classes: seq<nat>, width: real, height: real, version: int, minimum: real)
    : seq<Detection>
    requires |classes| == |rows|
    requires version == 5 ==> width != 0.0 && height != 0.0
  {
    if rows == [] then []
    else
      var n := |rows| - 1;
      Decode(rows[..n], classes[..n], width, height, version, minimum)
      + (if Passes(rows[n], minimum)
         then [Detection(RowBox(rows[n], width, height, version), classes[n], rows[n].conf)]
         else [])
  }

  /** A candidate is exactly the decoding of a row whose confidence passes. */
  lemma {:induction false} DecodeMembership(rows: seq<Row>, classes: seq<nat>, width: real, height: real,
                                            version: int, minimum: real, d: Detection)
    requires |classes| == |rows|
    requires version == 5 ==> width != 0.0 && height != 0.0
    ensures d in Decode(rows, classes, width, height, version, minimum) <==>
      exists i :: 0 <= i < |rows| && Passes(rows[i], minimum) &&
        d == Detection(RowBox(rows[i], width, height, version), classes[i], rows[i].conf)
  {
    if rows != [] {
      var n := |rows| - 1;
      DecodeMembership(rows[..n], classes[..n], width, height, version, minimum, d);
      if d in Decode(rows[..n], classes[..n], width, height, version, minimum) {
        var i :| 0 <= i < n && Passes(rows[..n][i], minimum) &&
          d == Detection(RowBox(rows[..n][i], width, height, version), classes[..n][i], rows[..n][i].conf);
        assert rows[..n][i] == rows[i] && classes[..n][i] == classes[i];
      }
      if exists i :: 0 <= i < |rows| && Passes(rows[i], minimum) &&
           d == Detection(RowBox(rows[i], width, height, version), classes[i], rows[i].conf) {
        var i :| 0 <= i < |rows| && Passes(rows[i], minimum) &&
          d == Detection(RowBox(rows[i], width, height, version), classes[i], rows[i].conf);
        if i < n {
          assert rows[..n][i] == rows[i] && classes[..n][i] == classes[i];
        }
      }
    }
  }

  /** Every candidate scores in `[minimum, 1.0]`. */
  lemma DecodeScores(rows: seq<Row>, classes: seq<nat>, width: real, height: real, version: int, minimum: real)
    requires |classes| == |rows|
    requires version == 5 ==> width != 0.0 && height != 0.0
    ensures forall d :: d in Decode(rows, classes, width, height, version, minimum) ==> minimum <= d.score <= 1.0
  {
    forall d | d in Decode(rows, classes, width, height, version, minimum) ensures minimum <= d.score <= 1.0 {
      DecodeMembership(rows, classes, width, height, version, minimum, d);
    }
  }

  /** A row in pixels divided by the image size, the way the version-6 export emits it. */
  function NormalizeRow(row: Row, width: real, height: real): (n: Row)
    requires width != 0.0 && height != 0.0
    ensures n.x * width == row.x && n.w * width == row.w && n.y * height == row.y && n.h * height == row.h
    ensures n.conf == row.conf && n.classScores == row.classScores
  {
    Row(row.x / width, row.y / height, row.w / width, row.h / height, row.conf, row.classScores)
  }

  function NormalizeRows(rows: seq<Row>, width: real, height: real): (r: seq<Row>)
    requires width != 0.0 && height != 0.0
    ensures |r| == |rows| && forall i :: 0 <= i < |rows| ==> r[i] == NormalizeRow(rows[i], width, height)
  {
    seq(|rows|, i requires 0 <= i < |rows| => NormalizeRow(rows[i], width, height))
  }

  lemma RowBoxVersions(row: Row, width: real, height: real)
    requires width != 0.0 && height != 0.0
    ensures RowBox(row, width, height, 5) == RowBox(NormalizeRow(row, width, height), width, height, 6)
  {
    var n := NormalizeRow(row, width, height);
    assert (row.x - row.w / 2.0) / width == n.x - n.w / 2.0;
    assert (row.x + row.w / 2.0) / width == n.x + n.w / 2.0;
    assert (row.y - row.h / 2.0) / height == n.y - n.h / 2.0;
    assert (row.y + row.h / 2.0) / height == n.y + n.h / 2.0;
  }

  /** Version 5 on pixel rows decodes exactly like version 6 on the same rows already divided
      by the image size: the two exports differ only in their units. */
  lemma {:induction false} Version5IsScaledVersion6(rows: seq<Row>, classes: seq<nat>, width: real, height: real,
                                                    minimum: real)
    requires |classes| == |rows|
    requires width != 0.0 && height != 0.0
    ensures Decode(rows, classes, width, height, 5, minimum)
         == Decode(NormalizeRows(rows, width, height), classes, width, height, 6, minimum)
  {
    if rows != [] {
      var n := |rows| - 1;
      assert NormalizeRows(rows, width, height)[..n] == NormalizeRows(rows[..n], width, height);
      Version5IsScaledVersion6(rows[..n], classes[..n], width, height, minimum);
      RowBoxVersions(rows[n], width, height);
    }
  }

  /** The error `process_output_yolov5` raises first, if any. */
  function Failure(output: seq<seq<Row>>, version: int): Option<DecodeError>
  {
    if version != 5 && version != 6 then Some(UnsupportedVersion)
    else if output == [] then Some(NoBatch)
    else if exists i :: 0 <= i < |output[0]| && output[0][i].classScores == [] then Some(EmptyClassScores)
    else if |output[0]| == 1 then Some(UnsizedScores)
    else None
  }

  /** `process_output_yolov5(output_data, img_shape, version, minimum_confidence_rating)`. */
  method ProcessOutputYolov5(output: seq<seq<Row>>, width: real, height: real, version: int, minimum: Option<real>)
    returns (r: Result<seq<Detection>, DecodeError>)
    requires version == 5 ==> width != 0.0 && height != 0.0
    ensures Failure(output, version).Some? <==> r.Err?
    ensures r.Err? ==> r.error == Failure(output, version).value
    ensures r.Ok? ==> exists classes: seq<nat> ::
      |classes| == |output[0]| &&
      (forall i :: 0 <= i < |classes| ==> IsFirstArgmax(output[0][i].classScores, classes[i])) &&
      r.value == Nms.NmsSpec(Decode(output[0], classes, width, height, version, minimum.GetOr(DefaultMinimum)),
                             width, IouThreshold)
  {
    if version != 5 && version != 6 {
      return Err(UnsupportedVersion);
    }
    if |output| == 0 {
      return Err(NoBatch);
    }
    var rows := output[0];
    var filtered := ClassFilter(rows);
    if filtered.Err? {
      return Err(EmptyClassScores);
    }
    if |rows| == 1 {
      return Err(UnsizedScores);
    }
    var classes := filtered.value;
    var min := if minimum.None? then DefaultMinimum else minimum.value;
    var rawScores := DecodeRows(rows, classes, width, height, version, min);
    var nmsScores := Nms.ObjectDetectionNms(rawScores, width, IouThreshold);
    return Ok(nmsScores);
  }

  /** The loop of `process_output_yolov5` that fills `rects`, `labels` and `score_res`, and
      their `zip`. */
  method DecodeRows(rows: seq<Row>, classes: seq<nat>, width: real, height: real, version: int, min: real)
    returns (rawScores: seq<Detection>)
    requires |classes| == |rows|
    requires version == 5 ==> width != 0.0 && height != 0.0
    ensures rawScores == Decode(rows, classes, width, height, version, min)
  {
    var rects: seq<Box> := [];
    var labels: seq<int> := [];
    var scoreRes: seq<real> := [];
    ghost var acc: seq<Detection> := [];
    for i := 0 to |rows|
      invariant acc == Decode(rows[..i], classes[..i], width, height, version, min)
      invariant rects == BoxesOf(acc) && labels == LabelsOf(acc) && scoreRes == ScoresOf(acc)
    {
      assert rows[..i + 1][..i] == rows[..i] && classes[..i + 1][..i] == classes[..i];
      if rows[i].conf >= min && rows[i].conf <= 1.0 {
        var x1 := rows[i].x - rows[i].w / 2.0;
        var y1 := rows[i].y - rows[i].h / 2.0;
        var x2 := rows[i].x + rows[i].w / 2.0;
        var y2 := rows[i].y + rows[i].h / 2.0;
        if version == 5 {
          x1, x2 := x1 / width, x2 / width;
          y1, y2 := y1 / height, y2 / height;
        }
        var bbox := Box(y1, x1, y2, x2);
        ColumnsSnoc(acc, Detection(bbox, classes[i], rows[i].conf));
        rects := rects + [bbox];
        labels := labels + [classes[i]];
        scoreRes := scoreRes + [rows[i].conf];
        acc := acc + [Detection(bbox, classes[i], rows[i].conf)];
      }
    }
    assert rows[..|rows|] == rows && classes[..|rows|] == classes;
    UnzipZip(acc);
    rawScores := Zip3(rects, labels, scoreRes);
  }

  /** Everything `process_output_yolov5` returns passed the confidence window and the floor. */
  lemma Yolov5Scores(rows: seq<Row>, classes: seq<nat>, width: real, height: real, version: int, minimum: real)
    requires |classes| == |rows|
    requires version == 5 ==> width != 0.0 && height != 0.0
    ensures var r := Nms.NmsSpec(Decode(rows, classes, width, height, version, minimum), width, IouThreshold);
      forall d :: d in r ==> minimum <= d.score <= 1.0 && d.score > Nms.ScoreFloor
  {
    var ds := Decode(rows, classes, width, height, version, minimum);
    Nms.NmsSubset(ds, width, IouThreshold);
    DecodeScores(rows, classes, width, height, version, minimum);
  }
}
