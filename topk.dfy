/**
 * The top-K extractor of the YOLO-Pro decoders. `_top_k_detection` keeps every (anchor, class)
 * pair whose score is above the threshold, orders them by descending score (`np.argsort` of the
 * negated scores) and keeps the first `max_detections`; `top_k_results` runs it per batch and
 * writes the results into arrays pre-filled with -1.
 */
module TopK {
  import opened Wrappers
  import opened Boxes

  /** The value `top_k_results` pre-fills every slot with. */
  const Fill: int := -1
  const FillBox: Xyxy := Xyxy(-1.0, -1.0, -1.0, -1.0)

  /** One pair of `np.where(scores > threshold)` with its score. */
  datatype Candidate = Candidate(anchor: nat, cls: nat, score: real)

  /** The result of `_top_k_detection`; all three sequences are empty when nothing passed. */
  datatype TopKResult = TopKResult(numDetections: nat, boxes: seq<Xyxy>, confidence: seq<real>, classes: seq<int>)

  datatype TopKError =
    | ShapeMismatch   // `assert scores.shape[0] == num_anchors`
    | NothingToStack  // `np.stack([])` when `max_detections` is 0 yet some score passed
    | MissingBatch    // `scores[i]` for a batch that only `boxes` has
    | NotOneImage     // `assert ... == 1, "Only one image per batch is expected"`
    | NoSlots         // `zip(*boxes)` unpacked into four names over zero slots

  predicate IsCandidate(scores: seq<seq<real>>, threshold: real, c: Candidate)
  {
    c.anchor < |scores| && c.cls < |scores[c.anchor]| && c.score == scores[c.anchor][c.cls] && c.score > threshold
  }

  /** The passing classes `j < n` of one anchor row, in class order. */
  function RowCandidates(a: nat, row: seq<real>, threshold: real, n: nat): seq<Candidate>
    requires n <= |row|
  {
    if n == 0 then []
    else
      var rest := RowCandidates(a, row, threshold, n - 1);
      if row[n - 1] > threshold then rest + [Candidate(a, n - 1, row[n - 1])] else rest
  }

  lemma {:induction false} RowCandidatesMembership(a: nat, row: seq<real>, threshold: real, n: nat)
    requires n <= |row|
    ensures forall c :: c in RowCandidates(a, row, threshold, n) <==>
      c.anchor == a && c.cls < n && c.score == row[c.cls] && c.score > threshold
  {
    if n > 0 {
      RowCandidatesMembership(a, row, threshold, n - 1);
    }
  }

  /** `np.where(scores > threshold)` over the first `m` anchors, in row-major order. */
  function CandidatesUpTo(scores: seq<seq<real>>, threshold: real, m: nat): seq<Candidate>
    requires m <= |scores|
  {
    if m == 0 then []
    else CandidatesUpTo(scores, threshold, m - 1) + RowCandidates(m - 1, scores[m - 1], threshold, |scores[m - 1]|)
  }

  lemma {:induction false} CandidatesUpToMembership(scores: seq<seq<real>>, threshold: real, m: nat)
    requires m <= |scores|
    ensures forall c :: c in CandidatesUpTo(scores, threshold, m) <==> c.anchor < m && IsCandidate(scores, threshold, c)
  {
    if m > 0 {
      CandidatesUpToMembership(scores, threshold, m - 1);
      RowCandidatesMembership(m - 1, scores[m - 1], threshold, |scores[m - 1]|);
    }
  }

  function Candidates(scores: seq<seq<real>>, threshold: real): seq<Candidate>
  {
    CandidatesUpTo(scores, threshold, |scores|)
  }

  /** The candidates are exactly the (anchor, class) pairs scoring above the threshold. */
  lemma CandidatesMembership(scores: seq<seq<real>>, threshold: real)
    ensures forall c :: c in Candidates(scores, threshold) <==> IsCandidate(scores, threshold, c)
  {
    CandidatesUpToMembership(scores, threshold, |scores|);
  }

  predicate Descending(s: seq<Candidate>)
  {
    forall i, j :: 0 <= i < j < |s| ==> s[i].score >= s[j].score
  }

  /** Places `c` before the first entry of `s` that scores no more than it. */
  function Insert(c: Candidate, s: seq<Candidate>): seq<Candidate>
  {
    if s == [] then [c]
    else if c.score >= s[0].score then [c] + s
    else [s[0]] + Insert(c, s[1..])
  }

  lemma InsertProperties(c: Candidate, s: seq<Candidate>)
    requires Descending(s)
    ensures |Insert(c, s)| == |s| + 1 && forall x :: x in Insert(c, s) <==> x == c || x in s
    ensures multiset(Insert(c, s)) == multiset(s) + multiset{c}
    ensures Descending(Insert(c, s))
  {
    InsertMembers(c, s);
    InsertOrdered(c, s);
  }

  lemma {:induction false} InsertMembers(c: Candidate, s: seq<Candidate>)
    ensures |Insert(c, s)| == |s| + 1 && forall x :: x in Insert(c, s) <==> x == c || x in s
    ensures multiset(Insert(c, s)) == multiset(s) + multiset{c}
  {
    if s != [] && c.score < s[0].score {
      InsertMembers(c, s[1..]);
      assert s == [s[0]] + s[1..];
    }
  }

  lemma {:induction false} InsertOrdered(c: Candidate, s: seq<Candidate>)
    requires Descending(s)
    ensures Descending(Insert(c, s))
  {
    if s == [] {
    } else if c.score >= s[0].score {
      PrependDescending(c, s);
    } else {
      var rest := Insert(c, s[1..]);
      InsertOrdered(c, s[1..]);
      InsertMembers(c, s[1..]);
      assert s == [s[0]] + s[1..];
      PrependDescending(s[0], rest);
    }
  }

  lemma PrependDescending(x: Candidate, s: seq<Candidate>)
    requires Descending(s) && forall y :: y in s ==> y.score <= x.score
    ensures Descending([x] + s)
  {
    forall i, j | 0 <= i < j < |[x] + s| ensures ([x] + s)[i].score >= ([x] + s)[j].score {
      assert ([x] + s)[j] == s[j - 1] && s[j - 1] in s;
      if i > 0 { assert ([x] + s)[i] == s[i - 1]; }
    }
  }

  /** `np.argsort(-scores)` read out: the candidates reordered by descending score. Ties may come
      out in any order in the source; this order is one of those it can produce. */
  function SortDescending(cs: seq<Candidate>): seq<Candidate>
  {
    if cs == [] then [] else Insert(cs[0], SortDescending(cs[1..]))
  }

  /** Sorting keeps every candidate, as often as it occurs, and orders them by descending score. */
  lemma SortDescendingProperties(cs: seq<Candidate>)
    ensures |SortDescending(cs)| == |cs| && multiset(SortDescending(cs)) == multiset(cs)
    ensures Descending(SortDescending(cs))
  {
    SortDescendingOrdered(cs);
    SortDescendingPermutes(cs);
  }

  lemma {:induction false} SortDescendingOrdered(cs: seq<Candidate>)
    ensures Descending(SortDescending(cs))
  {
    if cs != [] {
      SortDescendingOrdered(cs[1..]);
      InsertProperties(cs[0], SortDescending(cs[1..]));
    }
  }

  lemma {:induction false} SortDescendingPermutes(cs: seq<Candidate>)
    ensures |SortDescending(cs)| == |cs| && multiset(SortDescending(cs)) == multiset(cs)
  {
    if cs != [] {
      var rest := SortDescending(cs[1..]);
      SortDescendingPermutes(cs[1..]);
      SortDescendingOrdered(cs[1..]);
      InsertProperties(cs[0], rest);
      assert cs == [cs[0]] + cs[1..];
      assert multiset(cs) == multiset(cs[1..]) + multiset{cs[0]};
    }
  }

  function MinNat(a: nat, b: nat): nat { if a <= b then a else b }

  /** The candidates `_top_k_detection` keeps, best first. */
  function Selected(scores: seq<seq<real>>, threshold: real, maxDetections: nat): seq<Candidate>
  {
    var order := SortDescending(Candidates(scores, threshold));
    order[..MinNat(|order|, maxDetections)]
  }

  predicate AllCandidates(scores: seq<seq<real>>, threshold: real, s: seq<Candidate>)
  {
    forall k :: 0 <= k < |s| ==> IsCandidate(scores, threshold, s[k])
  }

  /** Every kept entry is a passing (anchor, class) pair, there are `min(M, max)` of them, and
      they come best first. */
  lemma SelectedAreCandidates(scores: seq<seq<real>>, threshold: real, maxDetections: nat)
    ensures AllCandidates(scores, threshold, Selected(scores, threshold, maxDetections))
    ensures |Selected(scores, threshold, maxDetections)| == MinNat(|Candidates(scores, threshold)|, maxDetections)
    ensures Descending(Selected(scores, threshold, maxDetections))
  {
    var cands := Candidates(scores, threshold);
    var order := SortDescending(cands);
    var top := Selected(scores, threshold, maxDetections);
    SortDescendingProperties(cands);
    CandidatesMembership(scores, threshold);
    forall k | 0 <= k < |top| ensures IsCandidate(scores, threshold, top[k]) {
      assert top[k] == order[k];
      assert order[k] in multiset(order);
      assert top[k] in multiset(cands);
    }
  }

  /** `_top_k_detection(boxes, scores, threshold, max_detections)`. */
  function TopKSpec(boxes: seq<Xyxy>, scores: seq<seq<real>>, threshold: real, maxDetections: nat)
    : Result<TopKResult, TopKError>
  {
    if |scores| != |boxes| then Err(ShapeMismatch)
    else
      var top := Selected(scores, threshold, maxDetections);
      if Candidates(scores, threshold) == [] then Ok(TopKResult(0, [], [], []))
      else if top == [] then Err(NothingToStack)
      else
        SelectedAreCandidates(scores, threshold, maxDetections);
        Ok(TopKResult(|top|, seq(|top|, k requires 0 <= k < |top| => boxes[top[k].anchor]),
                      seq(|top|, k requires 0 <= k < |top| => top[k].score),
                      seq(|top|, k requires 0 <= k < |top| => top[k].cls)))
  }

  /** `_top_k_detection`: the loop over the sorted arguments that gathers box, confidence and class. */
  method TopKDetection(boxes: seq<Xyxy>, scores: seq<seq<real>>, threshold: real, maxDetections: nat)
    returns (r: Result<TopKResult, TopKError>)
    ensures r == TopKSpec(boxes, scores, threshold, maxDetections)
  {
    if |scores| != |boxes| {
      return Err(ShapeMismatch);
    }
    var cands := Candidates(scores, threshold);
    if |cands| == 0 {
      return Ok(TopKResult(0, [], [], []));
    }
    var top := Selected(scores, threshold, maxDetections);
    if |top| == 0 {
      return Err(NothingToStack);
    }
    SelectedAreCandidates(scores, threshold, maxDetections);
    var topBoxes: seq<Xyxy> := [];
    var topConfidence: seq<real> := [];
    var topClasses: seq<int> := [];
    for t := 0 to |top|
      invariant |topBoxes| == |topConfidence| == |topClasses| == t
      invariant forall k :: 0 <= k < t ==> topBoxes[k] == boxes[top[k].anchor]
      invariant forall k :: 0 <= k < t ==> topConfidence[k] == top[k].score && topClasses[k] == top[k].cls
    {
      var pi := top[t].anchor;
      var ci := top[t].cls;
      topBoxes := topBoxes + [boxes[pi]];
      topConfidence := topConfidence + [scores[pi][ci]];
      topClasses := topClasses + [ci];
    }
    assert topBoxes == seq(|top|, k requires 0 <= k < |top| => boxes[top[k].anchor]);
    assert topConfidence == seq(|top|, k requires 0 <= k < |top| => top[k].score);
    assert topClasses == seq(|top|, k requires 0 <= k < |top| => top[k].cls);
    return Ok(TopKResult(|top|, topBoxes, topConfidence, topClasses));
  }

  /** What `_top_k_detection` promises: no passing score means zero detections; otherwise at most
      `max_detections` entries, each above the threshold, in non-increasing confidence order. */
  lemma TopKShape(boxes: seq<Xyxy>, scores: seq<seq<real>>, threshold: real, maxDetections: nat)
    requires TopKSpec(boxes, scores, threshold, maxDetections).Ok?
    ensures var t := TopKSpec(boxes, scores, threshold, maxDetections).value;
      && (t.numDetections == 0 <==> forall c :: !IsCandidate(scores, threshold, c))
      && t.numDetections == MinNat(|Candidates(scores, threshold)|, maxDetections)
      && |t.boxes| == |t.confidence| == |t.classes| == t.numDetections
      && (forall i :: 0 <= i < t.numDetections ==> t.confidence[i] > threshold)
      && (forall i, j :: 0 <= i < j < t.numDetections ==> t.confidence[i] >= t.confidence[j])
  {
    var cands := Candidates(scores, threshold);
    SelectedAreCandidates(scores, threshold, maxDetections);
    CandidatesMembership(scores, threshold);
    if cands != [] {
      assert IsCandidate(scores, threshold, cands[0]);
    }
  }

  /** `_top_k_detection` fails only on mismatched shapes, or on `max_detections == 0` with
      something to stack. */
  lemma TopKFailures(boxes: seq<Xyxy>, scores: seq<seq<real>>, threshold: real, maxDetections: nat)
    ensures TopKSpec(boxes, scores, threshold, maxDetections).Err? <==>
      |scores| != |boxes| || (maxDetections == 0 && exists c :: IsCandidate(scores, threshold, c))
  {
    SelectedAreCandidates(scores, threshold, maxDetections);
    CandidatesMembership(scores, threshold);
    var cands := Candidates(scores, threshold);
    if cands != [] {
      assert IsCandidate(scores, threshold, cands[0]);
    }
  }

  /** The kept entries are the best ones: any passing candidate left out scores no higher than
      any kept one. */
  lemma TopKIsTop(scores: seq<seq<real>>, threshold: real, maxDetections: nat)
    ensures multiset(Selected(scores, threshold, maxDetections)) <= multiset(Candidates(scores, threshold))
    ensures var top := Selected(scores, threshold, maxDetections);
      forall c, d :: c in multiset(Candidates(scores, threshold)) - multiset(top) && d in top ==> c.score <= d.score
  {
    var cands := Candidates(scores, threshold);
    var order := SortDescending(cands);
    SortDescendingProperties(cands);
    var k := MinNat(|order|, maxDetections);
    assert order == order[..k] + order[k..];
    assert multiset(cands) - multiset(order[..k]) == multiset(order[k..]);
    PrefixIsTop(order, k);
  }

  /** In a descending sequence nothing after position `k` beats anything before it. */
  lemma PrefixIsTop(order: seq<Candidate>, k: nat)
    requires Descending(order) && k <= |order|
    ensures forall c, d :: c in multiset(order[k..]) && d in order[..k] ==> c.score <= d.score
  {
    forall c, d | c in multiset(order[k..]) && d in order[..k] ensures c.score <= d.score {
      var j :| k <= j < |order| && order[j] == c by {
        assert c in order[k..];
        var j' :| 0 <= j' < |order| - k && order[k..][j'] == c;
        assert order[k + j'] == c;
      }
      var i :| 0 <= i < k && order[i] == d;
    }
  }

  /** The batched result: one entry per image, each row padded with -1 up to `max_detections`. */
  datatype Batched = Batched(numDetections: seq<int>, boxes: seq<seq<Xyxy>>, confidence: seq<seq<real>>,
                             classes: seq<seq<int>>)

  /** Image `i` of the batched result holds its own extraction in the first slots and -1 after. */
  predicate PaddedRow(t: Result<TopKResult, TopKError>, maxDetections: nat, n: int, bs: seq<Xyxy>, cs: seq<real>, ks: seq<int>)
  {
    && t.Ok? && t.value.numDetections <= maxDetections && n == t.value.numDetections
    && bs == t.value.boxes + Filled(maxDetections - t.value.numDetections, FillBox)
    && cs == t.value.confidence + Filled(maxDetections - t.value.numDetections, Fill as real)
    && ks == t.value.classes + Filled(maxDetections - t.value.numDetections, Fill)
  }

  /** `n` copies of `x`: a row of `np.ones(...) * fill_value`. */
  function Filled<T>(n: nat, x: T): (r: seq<T>)
    ensures |r| == n && forall k :: 0 <= k < n ==> r[k] == x
  {
    seq(n, _ => x)
  }

  /** `row[:n] = values` on a row of length at least `n`. */
  function Overwrite<T>(row: seq<T>, values: seq<T>): (r: seq<T>)
    requires |values| <= |row|
    ensures |r| == |row| && r[..|values|] == values && r[|values|..] == row[|values|..]
  {
    values + row[|values|..]
  }

  /** What `top_k_results` meets at image `i`: a missing score tensor, or its extraction. */
  function ImageResult(boxes: seq<seq<Xyxy>>, scores: seq<seq<seq<real>>>, threshold: real, maxDetections: nat, i: nat)
    : Result<TopKResult, TopKError>
    requires i < |boxes|
  {
    if i < |scores| then TopKSpec(boxes[i], scores[i], threshold, maxDetections) else Err(MissingBatch)
  }

  /** The results of the first `n` images. */
  function ImageResultsUpTo(boxes: seq<seq<Xyxy>>, scores: seq<seq<seq<real>>>, threshold: real, maxDetections: nat, n: nat)
    : (rs: seq<Result<TopKResult, TopKError>>)
    requires n <= |boxes|
    ensures |rs| == n
  {
    if n == 0 then []
    else ImageResultsUpTo(boxes, scores, threshold, maxDetections, n - 1) + [ImageResult(boxes, scores, threshold, maxDetections, n - 1)]
  }

  function ImageResults(boxes: seq<seq<Xyxy>>, scores: seq<seq<seq<real>>>, threshold: real, maxDetections: nat)
    : (rs: seq<Result<TopKResult, TopKError>>)
    ensures |rs| == |boxes|
  {
    ImageResultsUpTo(boxes, scores, threshold, maxDetections, |boxes|)
  }

  lemma {:induction false} ImageResultsUpToAt(boxes: seq<seq<Xyxy>>, scores: seq<seq<seq<real>>>, threshold: real,
                                              maxDetections: nat, n: nat, i: nat)
    requires i < n <= |boxes|
    ensures ImageResultsUpTo(boxes, scores, threshold, maxDetections, n)[i] == ImageResult(boxes, scores, threshold, maxDetections, i)
  {
    if i < n - 1 {
      ImageResultsUpToAt(boxes, scores, threshold, maxDetections, n - 1, i);
    }
  }

  function Errors(rs: seq<Result<TopKResult, TopKError>>): (os: seq<Option<TopKError>>)
    ensures |os| == |rs| && forall i :: 0 <= i < |rs| ==> (os[i].Some? <==> rs[i].Err?)
    ensures forall i :: 0 <= i < |rs| && rs[i].Err? ==> os[i] == Some(rs[i].error)
  {
    seq(|rs|, i requires 0 <= i < |rs| => if rs[i].Err? then Some(rs[i].error) else None)
  }

  /** The first failure among the first `n` outcomes, if any. */
  function FirstFailure(os: seq<Option<TopKError>>, n: nat): Option<TopKError>
    requires n <= |os|
  {
    if n == 0 then None
    else if FirstFailure(os, n - 1).Some? then FirstFailure(os, n - 1)
    else os[n - 1]
  }

  /** Once an image fails, the whole batch fails with that image's error. */
  lemma {:induction false} FirstFailureStable(os: seq<Option<TopKError>>, n: nat, m: nat)
    requires n <= m <= |os|
    requires FirstFailure(os, n).Some?
    ensures FirstFailure(os, m) == FirstFailure(os, n)
    decreases m
  {
    if n < m {
      FirstFailureStable(os, n, m - 1);
    }
  }

  /** No failure among the first `n` outcomes means each of them is `None`. */
  lemma {:induction false} NoFailureMeansOk(os: seq<Option<TopKError>>, n: nat, i: nat)
    requires i < n <= |os|
    requires FirstFailure(os, n).None?
    ensures os[i].None?
  {
    if i < n - 1 {
      NoFailureMeansOk(os, n - 1, i);
    }
  }

  /** One image of `top_k_results`: the row of fill values with the extraction written over its
      first `num_detections` slots (left alone when there are none). */
  lemma WriteRow(t: TopKResult, boxes: seq<Xyxy>, scores: seq<seq<real>>, threshold: real, maxDetections: nat)
    requires TopKSpec(boxes, scores, threshold, maxDetections) == Ok(t)
    ensures var n := t.numDetections;
      var (bs, cs, ks) := if n == 0 then (Filled(maxDetections, FillBox), Filled(maxDetections, Fill as real), Filled(maxDetections, Fill))
                          else (Overwrite(Filled(maxDetections, FillBox), t.boxes),
                                Overwrite(Filled(maxDetections, Fill as real), t.confidence),
                                Overwrite(Filled(maxDetections, Fill), t.classes));
      PaddedRow(Ok(t), maxDetections, n, bs, cs, ks)
  {
    TopKShape(boxes, scores, threshold, maxDetections);
    var n := t.numDetections;
    if n == 0 {
      assert t.boxes == [] && t.confidence == [] && t.classes == [];
    }
  }

  /** `top_k_results(boxes, scores, threshold, max_detections_per_image)`. */
  method TopKResults(boxes: seq<seq<Xyxy>>, scores: seq<seq<seq<real>>>, threshold: real, maxDetections: nat)
    returns (r: Result<Batched, TopKError>)
    ensures r.Err? <==> FirstFailure(Errors(ImageResults(boxes, scores, threshold, maxDetections)), |boxes|).Some?
    ensures r.Err? ==> r.error == FirstFailure(Errors(ImageResults(boxes, scores, threshold, maxDetections)), |boxes|).value
    ensures r.Ok? ==> |r.value.numDetections| == |r.value.boxes| == |r.value.confidence| == |r.value.classes| == |boxes| <= |scores|
    ensures r.Ok? ==> forall i :: 0 <= i < |boxes| ==>
      PaddedRow(TopKSpec(boxes[i], scores[i], threshold, maxDetections), maxDetections,
                r.value.numDetections[i], r.value.boxes[i], r.value.confidence[i], r.value.classes[i])
  {
    var numBatches := |boxes|;
    var numDetections := new int[numBatches](_ => Fill);
    var boxRows := new seq<Xyxy>[numBatches](_ => Filled(maxDetections, FillBox));
    var confRows := new seq<real>[numBatches](_ => Filled(maxDetections, Fill as real));
    var classRows := new seq<int>[numBatches](_ => Filled(maxDetections, Fill));
    var err := FillBatches(boxes, scores, threshold, maxDetections, numDetections, boxRows, confRows, classRows);
    if err.Some? {
      return Err(err.value);
    }
    ghost var specs := ImageResults(boxes, scores, threshold, maxDetections);
    var b := Batched(numDetections[..], boxRows[..], confRows[..], classRows[..]);
    forall i | 0 <= i < |boxes|
      ensures specs[i] == TopKSpec(boxes[i], scores[i], threshold, maxDetections)
    {
      ImageResultsUpToAt(boxes, scores, threshold, maxDetections, numBatches, i);
    }
    return Ok(b);
  }

  /** The loop of `top_k_results` over the images, writing into the pre-filled arrays. */
  method FillBatches(boxes: seq<seq<Xyxy>>, scores: seq<seq<seq<real>>>, threshold: real, maxDetections: nat,
                     numDetections: array<int>, boxRows: array<seq<Xyxy>>, confRows: array<seq<real>>,
                     classRows: array<seq<int>>)
    returns (err: Option<TopKError>)
    requires numDetections.Length == boxRows.Length == confRows.Length == classRows.Length == |boxes|
    requires forall j :: 0 <= j < |boxes| ==> boxRows[j] == Filled(maxDetections, FillBox)
    requires forall j :: 0 <= j < |boxes| ==> confRows[j] == Filled(maxDetections, Fill as real)
    requires forall j :: 0 <= j < |boxes| ==> classRows[j] == Filled(maxDetections, Fill)
    modifies numDetections, boxRows, confRows, classRows
    ensures err == FirstFailure(Errors(ImageResults(boxes, scores, threshold, maxDetections)), |boxes|)
    ensures err.None? ==> forall j :: 0 <= j < |boxes| ==>
      PaddedRow(ImageResults(boxes, scores, threshold, maxDetections)[j], maxDetections,
                numDetections[j], boxRows[j], confRows[j], classRows[j])
  {
    var numBatches := |boxes|;
    ghost var specs := ImageResults(boxes, scores, threshold, maxDetections);
    ghost var os := Errors(specs);
    err := None;
    for i := 0 to numBatches
      invariant FirstFailure(os, i).None?
      invariant forall j :: i <= j < numBatches ==> boxRows[j] == Filled(maxDetections, FillBox)
      invariant forall j :: i <= j < numBatches ==> confRows[j] == Filled(maxDetections, Fill as real)
      invariant forall j :: i <= j < numBatches ==> classRows[j] == Filled(maxDetections, Fill)
      invariant forall j :: 0 <= j < i ==>
        PaddedRow(specs[j], maxDetections, numDetections[j], boxRows[j], confRows[j], classRows[j])
    {
      ImageResultsUpToAt(boxes, scores, threshold, maxDetections, numBatches, i);
      err := ProcessImage(boxes, scores, threshold, maxDetections, numDetections, boxRows, confRows, classRows, i, specs[i]);
      if err.Some? {
        FirstFailureStable(os, i + 1, numBatches);
        return err;
      }
    }
    return None;
  }

  /** The body of the loop of `top_k_results` for image `i`: extract, then write unless it failed. */
  method ProcessImage(boxes: seq<seq<Xyxy>>, scores: seq<seq<seq<real>>>, threshold: real, maxDetections: nat,
                      numDetections: array<int>, boxRows: array<seq<Xyxy>>, confRows: array<seq<real>>,
                      classRows: array<seq<int>>, i: nat, ghost spec: Result<TopKResult, TopKError>)
    returns (err: Option<TopKError>)
    requires i < |boxes| == numDetections.Length == boxRows.Length == confRows.Length == classRows.Length
    requires spec == ImageResult(boxes, scores, threshold, maxDetections, i)
    requires boxRows[i] == Filled(maxDetections, FillBox) && confRows[i] == Filled(maxDetections, Fill as real)
    requires classRows[i] == Filled(maxDetections, Fill)
    modifies numDetections, boxRows, confRows, classRows
    ensures err == (if spec.Err? then Some(spec.error) else None)
    ensures err.None? ==> PaddedRow(spec, maxDetections, numDetections[i], boxRows[i], confRows[i], classRows[i])
    ensures numDetections[..] == old(numDetections[..])[i := numDetections[i]]
    ensures boxRows[..] == old(boxRows[..])[i := boxRows[i]]
    ensures confRows[..] == old(confRows[..])[i := confRows[i]]
    ensures classRows[..] == old(classRows[..])[i := classRows[i]]
  {
    if i >= |scores| {
      return Some(MissingBatch);
    }
    var result := TopKDetection(boxes[i], scores[i], threshold, maxDetections);
    if result.Err? {
      return Some(result.error);
    }
    var t := result.value;
    WriteRow(t, boxes[i], scores[i], threshold, maxDetections);
    WriteImage(numDetections, boxRows, confRows, classRows, i, t);
    return None;
  }

  /** Writes one extraction over the pre-filled rows of image `i`. */
  method WriteImage(numDetections: array<int>, boxRows: array<seq<Xyxy>>, confRows: array<seq<real>>,
                    classRows: array<seq<int>>, i: nat, t: TopKResult)
    requires i < numDetections.Length == boxRows.Length == confRows.Length == classRows.Length
    requires |t.boxes| <= |boxRows[i]| && |t.confidence| <= |confRows[i]| && |t.classes| <= |classRows[i]|
    modifies numDetections, boxRows, confRows, classRows
    ensures numDetections[..] == old(numDetections[..])[i := t.numDetections]
    ensures boxRows[..] == old(boxRows[..])[i := if t.numDetections == 0 then old(boxRows[i]) else Overwrite(old(boxRows[i]), t.boxes)]
    ensures confRows[..] == old(confRows[..])[i := if t.numDetections == 0 then old(confRows[i]) else Overwrite(old(confRows[i]), t.confidence)]
    ensures classRows[..] == old(classRows[..])[i := if t.numDetections == 0 then old(classRows[i]) else Overwrite(old(classRows[i]), t.classes)]
  {
    numDetections[i] := t.numDetections;
    if t.numDetections != 0 {
      boxRows[i] := Overwrite(boxRows[i], t.boxes);
      confRows[i] := Overwrite(confRows[i], t.confidence);
      classRows[i] := Overwrite(classRows[i], t.classes);
    }
  }

  /** Every slot at or beyond an image's detection count keeps the fill value -1, and every slot
      before it holds a confidence above the threshold. */
  lemma PaddingIsFill(t: Result<TopKResult, TopKError>, boxes: seq<Xyxy>, scores: seq<seq<real>>, threshold: real,
                      maxDetections: nat, n: int, bs: seq<Xyxy>, cs: seq<real>, ks: seq<int>, j: nat)
    requires t == TopKSpec(boxes, scores, threshold, maxDetections)
    requires PaddedRow(t, maxDetections, n, bs, cs, ks) && j < maxDetections
    ensures |bs| == |cs| == |ks| == maxDetections
    ensures j >= n ==> bs[j] == FillBox && cs[j] == -1.0 && ks[j] == -1
    ensures j < n ==> cs[j] > threshold
  {
    TopKShape(boxes, scores, threshold, maxDetections);
  }
}
