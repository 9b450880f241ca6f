/**
 * Box geometry shared by the decoders, the suppressor and the mAP wrapper: the TensorFlow box
 * format `[ymin, xmin, ymax, xmax]`, the `[x1, y1, x2, y2]` corner format the decoders compute,
 * centre-to-corner conversion, intersection-over-union, and `(box, label, score)` triples.
 */
module Boxes {

  /** TensorFlow box format `[ymin, xmin, ymax, xmax]`. */
  datatype Box = Box(ymin: real, xmin: real, ymax: real, xmax: real)

  /** Corner format `[x1, y1, x2, y2]` (top-left, bottom-right). */
  datatype Xyxy = Xyxy(x1: real, y1: real, x2: real, y2: real)

  /** Centre format `[x, y, w, h]`. */
  datatype Xywh = Xywh(x: real, y: real, w: real, h: real)

  /** One `(box, label, score)` triple of the canonical detection list. */
  datatype Detection = Detection(box: Box, classId: int, score: real)

  /** `[x - w/2, y - h/2, x + w/2, y + h/2]`. */
  function CenterToCorner(c: Xywh): (q: Xyxy)
    ensures q.x2 - q.x1 == c.w && q.y2 - q.y1 == c.h
    ensures q.x1 + q.x2 == 2.0 * c.x && q.y1 + q.y2 == 2.0 * c.y
  {
    Xyxy(c.x - c.w / 2.0, c.y - c.h / 2.0, c.x + c.w / 2.0, c.y + c.h / 2.0)
  }

  /** The inverse of CenterToCorner. */
  function CornerToCenter(q: Xyxy): Xywh
  {
    Xywh((q.x1 + q.x2) / 2.0, (q.y1 + q.y2) / 2.0, q.x2 - q.x1, q.y2 - q.y1)
  }

  lemma CenterCornerRoundTrip(c: Xywh, q: Xyxy)
    ensures CornerToCenter(CenterToCorner(c)) == c
    ensures CenterToCorner(CornerToCenter(q)) == q
  {
  }

  /** `bbox = [ymin, xmin, ymax, xmax]` built from corner coordinates. */
  function ToTfBox(q: Xyxy): (b: Box)
    ensures b.xmin == q.x1 && b.ymin == q.y1 && b.xmax == q.x2 && b.ymax == q.y2
  {
    Box(q.y1, q.x1, q.y2, q.x2)
  }

  /** `[p[1], p[0], p[3], p[2]]`: back from TensorFlow order to `[xmin, ymin, xmax, ymax]`. */
  function ToXyxy(b: Box): (q: Xyxy)
    ensures ToTfBox(q) == b
  {
    Xyxy(b.xmin, b.ymin, b.xmax, b.ymax)
  }

  lemma TfBoxRoundTrip(q: Xyxy)
    ensures ToXyxy(ToTfBox(q)) == q
  {
  }

  /** Every coordinate divided by the image side it belongs to. */
  function NormalizeXyxy(q: Xyxy, width: real, height: real): Xyxy
    requires width != 0.0 && height != 0.0
  {
    Xyxy(q.x1 / width, q.y1 / height, q.x2 / width, q.y2 / height)
  }

  /** `box * width_height`. */
  function ScaleBox(b: Box, k: real): Box
  {
    Box(b.ymin * k, b.xmin * k, b.ymax * k, b.xmax * k)
  }

  function Max(a: real, b: real): real { if a < b then b else a }
  function Min(a: real, b: real): real { if a < b then a else b }

  function Area(b: Box): real
  {
    (b.ymax - b.ymin) * (b.xmax - b.xmin)
  }

  /** Length of the overlap of the intervals [lo1, hi1] and [lo2, hi2] (0 when disjoint). */
  function Overlap(lo1: real, hi1: real, lo2: real, hi2: real): (r: real)
    ensures 0.0 <= r
    ensures r <= Max(0.0, hi1 - lo1) && r <= Max(0.0, hi2 - lo2)
  {
    Max(0.0, Min(hi1, hi2) - Max(lo1, lo2))
  }

  function Intersection(a: Box, b: Box): real
  {
    Overlap(a.ymin, a.ymax, b.ymin, b.ymax) * Overlap(a.xmin, a.xmax, b.xmin, b.xmax)
  }

  /** Intersection over union; a box of non-positive area overlaps nothing. */
  function IoU(a: Box, b: Box): (r: real)
    ensures 0.0 <= r <= 1.0
  {
    if Area(a) <= 0.0 || Area(b) <= 0.0 then 0.0
    else
      IntersectionBounded(a, b);
      IntersectionBounded(b, a);
      IntersectionSymmetric(a, b);
      var inter := Intersection(a, b);
      var union := Area(a) + Area(b) - inter;
      assert 0.0 <= inter <= union;
      assert inter / union <= 1.0 by { DivAtMostOne(inter, union); }
      inter / union
  }

  lemma DivAtMostOne(x: real, y: real)
    requires 0.0 <= x <= y && 0.0 < y
    ensures 0.0 <= x / y <= 1.0
  {
    assert x / y * y == x;
  }

  /** A box's intersection with another never exceeds its own (positive) area. */
  lemma IntersectionBounded(a: Box, b: Box)
    requires Area(a) > 0.0
    ensures 0.0 <= Intersection(a, b) <= Area(a)
  {
    var oy := Overlap(a.ymin, a.ymax, b.ymin, b.ymax);
    var ox := Overlap(a.xmin, a.xmax, b.xmin, b.xmax);
    OverlapsWithinArea(a, oy, ox);
  }

  lemma OverlapsWithinArea(a: Box, oy: real, ox: real)
    requires Area(a) > 0.0
    requires 0.0 <= oy <= Max(0.0, a.ymax - a.ymin) && 0.0 <= ox <= Max(0.0, a.xmax - a.xmin)
    ensures 0.0 <= oy * ox <= Area(a)
  {
    var h, w := a.ymax - a.ymin, a.xmax - a.xmin;
    assert Area(a) == h * w;
    OverlapProductBounded(oy, ox, h, w);
  }

  lemma IntersectionSymmetric(a: Box, b: Box)
    ensures Intersection(a, b) == Intersection(b, a)
  {
    assert Overlap(b.ymin, b.ymax, a.ymin, a.ymax) == Overlap(a.ymin, a.ymax, b.ymin, b.ymax);
    assert Overlap(b.xmin, b.xmax, a.xmin, a.xmax) == Overlap(a.xmin, a.xmax, b.xmin, b.xmax);
  }

  /** The arithmetic core of IntersectionBounded: overlaps bounded by the sides of a box of
      positive area have a product bounded by that area. */
  lemma OverlapProductBounded(oy: real, ox: real, h: real, w: real)
    requires h * w > 0.0
    requires 0.0 <= oy <= Max(0.0, h) && 0.0 <= ox <= Max(0.0, w)
    ensures 0.0 <= oy * ox <= h * w
  {
    ProductNonNegative(oy, ox);
    if h > 0.0 && w > 0.0 {
      ProductMonotonic(oy, ox, h, w);
    } else if h < 0.0 && w < 0.0 {
      // a negative height: the intervals cannot overlap
      assert oy == 0.0;
    } else {
      MixedSignsProduct(h, w);
      assert false;
    }
  }

  lemma MixedSignsProduct(a: real, b: real)
    requires (0.0 <= a && b <= 0.0) || (a <= 0.0 && 0.0 <= b)
    ensures a * b <= 0.0
  {
    if 0.0 <= a && b <= 0.0 {
      ProductNonNegative(a, -b);
    } else {
      ProductNonNegative(-a, b);
    }
  }

  lemma ProductNonNegative(a: real, b: real)
    requires 0.0 <= a && 0.0 <= b
    ensures 0.0 <= a * b
  {
  }

  lemma ProductMonotonic(a: real, b: real, c: real, d: real)
    requires 0.0 <= a <= c && 0.0 <= b <= d
    ensures a * b <= c * d
  {
    assert a * b <= c * b;
    assert c * b <= c * d;
  }

  lemma IoUSymmetric(a: Box, b: Box)
    ensures IoU(a, b) == IoU(b, a)
  {
    IntersectionSymmetric(a, b);
  }

  /** The columns of a detection list (`zip(*raw_detections)`). */
  function BoxesOf(ds: seq<Detection>): (r: seq<Box>)
    ensures |r| == |ds| && forall i :: 0 <= i < |ds| ==> r[i] == ds[i].box
  {
    seq(|ds|, i requires 0 <= i < |ds| => ds[i].box)
  }

  function LabelsOf(ds: seq<Detection>): (r: seq<int>)
    ensures |r| == |ds| && forall i :: 0 <= i < |ds| ==> r[i] == ds[i].classId
  {
    seq(|ds|, i requires 0 <= i < |ds| => ds[i].classId)
  }

  function ScoresOf(ds: seq<Detection>): (r: seq<real>)
    ensures |r| == |ds| && forall i :: 0 <= i < |ds| ==> r[i] == ds[i].score
  {
    seq(|ds|, i requires 0 <= i < |ds| => ds[i].score)
  }

  function MinLength(a: nat, b: nat, c: nat): nat
  {
    if a <= b && a <= c then a else if b <= c then b else c
  }

  /** `list(zip(rects, labels, scores))`: stops at the shortest column. */
  function Zip3(boxes: seq<Box>, labels: seq<int>, scores: seq<real>): (r: seq<Detection>)
    ensures |r| == MinLength(|boxes|, |labels|, |scores|)
    ensures forall i :: 0 <= i < |r| ==> r[i] == Detection(boxes[i], labels[i], scores[i])
  {
    seq(MinLength(|boxes|, |labels|, |scores|),
        i requires 0 <= i < MinLength(|boxes|, |labels|, |scores|) => Detection(boxes[i], labels[i], scores[i]))
  }

  /** Splitting a detection list into columns and zipping them back loses nothing. */
  lemma UnzipZip(ds: seq<Detection>)
    ensures Zip3(BoxesOf(ds), LabelsOf(ds), ScoresOf(ds)) == ds
  {
  }

  /** Appending one detection appends one entry to each column. */
  lemma ColumnsSnoc(ds: seq<Detection>, d: Detection)
    ensures BoxesOf(ds + [d]) == BoxesOf(ds) + [d.box]
    ensures LabelsOf(ds + [d]) == LabelsOf(ds) + [d.classId]
    ensures ScoresOf(ds + [d]) == ScoresOf(ds) + [d.score]
  {
  }

  /** `[d for d in ds if d.score >= minimum]`: each passing detection is kept as often as it
      occurs, every other one is dropped. */
  function FilterByScore(ds: seq<Detection>, minimum: real): (r: seq<Detection>)
    ensures |r| <= |ds|
    ensures forall d :: d in r <==> d in ds && d.score >= minimum
    ensures forall d :: multiset(r)[d] == if d.score >= minimum then multiset(ds)[d] else 0
    ensures (forall i :: 0 <= i < |ds| ==> ds[i].score >= minimum) ==> r == ds
  {
    if ds == [] then []
    else
      assert multiset(ds) == multiset([ds[0]]) + multiset(ds[1..]) by { assert ds == [ds[0]] + ds[1..]; }
      if ds[0].score >= minimum then [ds[0]] + FilterByScore(ds[1..], minimum)
      else FilterByScore(ds[1..], minimum)
  }

  /** The comprehension keeps order: filtering a concatenation filters each part and keeps the
      parts in order. With `FilterBySingle` this fixes the result completely. */
  lemma {:induction false} FilterByScoreConcat(a: seq<Detection>, b: seq<Detection>, minimum: real)
    ensures FilterByScore(a + b, minimum) == FilterByScore(a, minimum) + FilterByScore(b, minimum)
  {
    if a == [] {
      assert a + b == b;
    } else {
      var ab := a + b;
      assert ab[0] == a[0] && ab[1..] == a[1..] + b;
      FilterByScoreConcat(a[1..], b, minimum);
      if a[0].score >= minimum {
        calc {
          FilterByScore(ab, minimum);
          [a[0]] + FilterByScore(a[1..] + b, minimum);
          [a[0]] + (FilterByScore(a[1..], minimum) + FilterByScore(b, minimum));
          ([a[0]] + FilterByScore(a[1..], minimum)) + FilterByScore(b, minimum);
        }
      }
    }
  }

  /** A single detection is kept exactly when it passes. */
  lemma FilterBySingle(d: Detection, minimum: real)
    ensures FilterByScore([d], minimum) == if d.score >= minimum then [d] else []
  {
    assert [d][1..] == [];
  }
}
