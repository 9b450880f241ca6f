/**
 * The YOLOv7 decoder `process_output_yolov7`: every row `(batch_id, xmin, ymin, xmax, ymax,
 * cls_id, score)` of the exported model becomes one `(box, label, score)` triple, with the pixel
 * coordinates divided by the image size and the class id truncated to an integer. There is no
 * confidence filter and no suppression: the export already did both.
 */
module Yolov7 {
  import opened Boxes
  import opened PyInt

  /** One row of the exported model's output. */
  datatype Row = Row(batchId: real, xmin: real, ymin: real, xmax: real, ymax: real, clsId: real, score: real)

  /** The triple one row becomes. */
  function DecodeRow(row: Row, width: real, height: real): (d: Detection)
    requires width != 0.0 && height != 0.0
    ensures d.box.xmin * width == row.xmin && d.box.xmax * width == row.xmax
    ensures d.box.ymin * height == row.ymin && d.box.ymax * height == row.ymax
    ensures d.classId == Trunc(row.clsId) && d.score == row.score
  {
    Detection(Box(row.ymin / height, row.xmin / width, row.ymax / height, row.xmax / width), Trunc(row.clsId), row.score)
  }

  /** `process_output_yolov7(output_data, width, height, minimum_confidence_rating)`; the minimum
      is read and defaulted but never used. */
  method ProcessOutputYolov7(rows: seq<Row>, width: real, height: real, minimum: real)
    returns (rawScores: seq<Detection>)
    requires width != 0.0 && height != 0.0
    ensures |rawScores| == |rows|
    ensures forall i :: 0 <= i < |rows| ==> rawScores[i] == DecodeRow(rows[i], width, height)
  {
    var rects: seq<Box> := [];
    var labels: seq<int> := [];
    var scoreRes: seq<real> := [];
    for i := 0 to |rows|
      invariant |rects| == |labels| == |scoreRes| == i
      invariant forall j :: 0 <= j < i ==>
        Detection(rects[j], labels[j], scoreRes[j]) == DecodeRow(rows[j], width, height)
    {
      var xmin := rows[i].xmin / width;
      var xmax := rows[i].xmax / width;
      var ymin := rows[i].ymin / height;
      var ymax := rows[i].ymax / height;
      rects := rects + [Box(ymin, xmin, ymax, xmax)];
      labels := labels + [Trunc(rows[i].clsId)];
      scoreRes := scoreRes + [rows[i].score];
    }
    rawScores := Zip3(rects, labels, scoreRes);
  }

  /** A box inside a positive-size image decodes into the unit square, corners in order. */
  lemma DecodeRowInUnitSquare(row: Row, width: real, height: real)
    requires width > 0.0 && height > 0.0
    requires 0.0 <= row.xmin <= row.xmax <= width && 0.0 <= row.ymin <= row.ymax <= height
    ensures var b := DecodeRow(row, width, height).box;
      0.0 <= b.xmin <= b.xmax <= 1.0 && 0.0 <= b.ymin <= b.ymax <= 1.0
  {
    var b := DecodeRow(row, width, height).box;
    UnitScale(row.xmin, row.xmax, width);
    UnitScale(row.ymin, row.ymax, height);
  }

  lemma UnitScale(lo: real, hi: real, side: real)
    requires side > 0.0 && 0.0 <= lo <= hi <= side
    ensures 0.0 <= lo / side <= hi / side <= 1.0
  {
    var a, b := lo / side, hi / side;
    assert a * side == lo && b * side == hi;
    assert (b - a) * side == hi - lo;
    assert (1.0 - b) * side == side - hi;
  }
}
