/**
 * The per-label suppression wrapper `object_detection_nms`: detections are split by label
 * (in `np.unique` order, ascending), each group goes through a greedy IoU suppressor with a
 * score floor of 0.001 (the model of `tf.image.non_max_suppression` with
 * `max_output_size = len(group)`), and the survivors of every group are concatenated.
 */
module Nms {
  import opened Boxes

  /** `score_threshold=0.001`: a box must score above it to be considered at all. */
  const ScoreFloor: real := 0.001

  predicate StrictlyIncreasing(xs: seq<int>)
  {
    forall i, j :: 0 <= i < j < |xs| ==> xs[i] < xs[j]
  }

  /** Inserts `x` into a strictly increasing sequence unless it is already there. */
  function InsertSorted(xs: seq<int>, x: int): (r: seq<int>)
    requires StrictlyIncreasing(xs)
    ensures StrictlyIncreasing(r)
    ensures forall y :: y in r <==> y in xs || y == x
  {
    if xs == [] then [x]
    else if x < xs[0] then
      assert forall y :: y in xs ==> xs[0] <= y;
      [x] + xs
    else if x == xs[0] then xs
    else
      var rest := InsertSorted(xs[1..], x);
      assert forall y :: y in rest ==> xs[0] < y;
      PrependIncreasing(xs[0], rest);
      [xs[0]] + rest
  }

  lemma PrependIncreasing(x: int, xs: seq<int>)
    requires StrictlyIncreasing(xs)
    requires forall y :: y in xs ==> x < y
    ensures StrictlyIncreasing([x] + xs)
  {
    forall i, j | 0 <= i < j < |[x] + xs| ensures ([x] + xs)[i] < ([x] + xs)[j] {
      assert ([x] + xs)[j] == xs[j - 1] && xs[j - 1] in xs;
      if i > 0 { assert ([x] + xs)[i] == xs[i - 1]; }
    }
  }

  /** `np.unique(labels)`: the distinct labels in ascending order. */
  function UniqueSorted(ls: seq<int>): (r: seq<int>)
    ensures StrictlyIncreasing(r)
    ensures forall y :: y in r <==> y in ls
  {
    if ls == [] then [] else InsertSorted(UniqueSorted(ls[..|ls| - 1]), ls[|ls| - 1])
  }

  /** The detections with label `l`, in input order (the boolean mask of the source). */
  function Group(ds: seq<Detection>, l: int): (r: seq<Detection>)
    ensures |r| <= |ds|
    ensures forall d :: d in r <==> d in ds && d.classId == l
  {
    if ds == [] then []
    else if ds[|ds| - 1].classId == l then Group(ds[..|ds| - 1], l) + [ds[|ds| - 1]]
    else Group(ds[..|ds| - 1], l)
  }

  predicate ValidIndices(g: seq<Detection>, s: seq<nat>)
  {
    forall j :: 0 <= j < |s| ==> s[j] < |g|
  }

  predicate Distinct(s: seq<nat>)
  {
    forall i, j :: 0 <= i < j < |s| ==> s[i] != s[j]
  }

  /** Box `i` suppresses box `j` when their boxes, scaled to pixels, overlap above the threshold. */
  predicate Suppresses(g: seq<Detection>, side: real, threshold: real, i: nat, j: nat)
    requires i < |g| && j < |g|
  {
    IoU(ScaleBox(g[i].box, side), ScaleBox(g[j].box, side)) > threshold
  }

  /** The indices below `n` whose score passes the floor, ascending. */
  function Candidates(g: seq<Detection>, n: nat): (r: seq<nat>)
    requires n <= |g|
    ensures ValidIndices(g, r) && Distinct(r)
    ensures forall x: nat :: x in r <==> x < n && g[x].score > ScoreFloor
    ensures forall j :: 0 <= j < |r| ==> r[j] < n
  {
    if n == 0 then []
    else
      var init := Candidates(g, n - 1);
      if g[n - 1].score > ScoreFloor then
        assert n - 1 !in init;
        DistinctSnoc(init, n - 1);
        init + [n - 1]
      else init
  }

  lemma DistinctSnoc(s: seq<nat>, x: nat)
    requires Distinct(s) && x !in s
    ensures Distinct(s + [x])
  {
    forall i, j | 0 <= i < j < |s + [x]| ensures (s + [x])[i] != (s + [x])[j] {
      assert (s + [x])[i] == s[i];
      if j < |s| { assert (s + [x])[j] == s[j]; }
    }
  }

  lemma DistinctCons(x: nat, s: seq<nat>)
    requires Distinct(s) && x !in s
    ensures Distinct([x] + s)
  {
    forall i, j | 0 <= i < j < |[x] + s| ensures ([x] + s)[i] != ([x] + s)[j] {
      assert ([x] + s)[j] == s[j - 1];
      if i > 0 { assert ([x] + s)[i] == s[i - 1]; }
    }
  }

  /** The position of the best-scoring candidate, the earliest one among equal scores. */
  function BestPosition(g: seq<Detection>, cand: seq<nat>): (p: nat)
    requires ValidIndices(g, cand) && cand != []
    ensures p < |cand|
    ensures forall q :: 0 <= q < |cand| ==> g[cand[q]].score <= g[cand[p]].score
    ensures forall q :: 0 <= q < p ==> g[cand[q]].score < g[cand[p]].score
  {
    if |cand| == 1 then 0
    else
      var p := BestPosition(g, cand[..|cand| - 1]);
      if g[cand[|cand| - 1]].score > g[cand[p]].score then |cand| - 1 else p
  }

  function RemoveAt(s: seq<nat>, p: nat): (r: seq<nat>)
    requires p < |s| && Distinct(s)
    ensures Distinct(r)
    ensures forall x :: x in r <==> x in s && x != s[p]
    ensures |r| == |s| - 1
  {
    assert forall x :: x in s ==> x == s[p] || x in s[..p] || x in s[p + 1..] by {
      forall x | x in s ensures x == s[p] || x in s[..p] || x in s[p + 1..] {
        var i :| 0 <= i < |s| && s[i] == x;
        if i < p { assert s[..p][i] == x; } else if i > p { assert s[p + 1..][i - p - 1] == x; }
      }
    }
    s[..p] + s[p + 1..]
  }

  /** The candidates that box `b` does not suppress, in order. */
  function Survivors(g: seq<Detection>, side: real, threshold: real, b: nat, cs: seq<nat>): (r: seq<nat>)
    requires b < |g| && ValidIndices(g, cs)
    ensures ValidIndices(g, r) && |r| <= |cs|
    ensures forall x :: x in r <==> x in cs && !Suppresses(g, side, threshold, b, x)
    ensures Distinct(cs) ==> Distinct(r)
  {
    if cs == [] then []
    else
      var rest := Survivors(g, side, threshold, b, cs[1..]);
      if Suppresses(g, side, threshold, b, cs[0]) then rest else [cs[0]] + rest
  }

  /** Greedy suppression: keep the best remaining candidate, drop every candidate it
      suppresses, repeat. */
  function Greedy(g: seq<Detection>, side: real, threshold: real, cand: seq<nat>): (r: seq<nat>)
    requires ValidIndices(g, cand) && Distinct(cand)
    ensures ValidIndices(g, r) && Distinct(r)
    ensures forall x :: x in r ==> x in cand
    decreases |cand|
  {
    if cand == [] then []
    else
      var p := BestPosition(g, cand);
      var rest := Survivors(g, side, threshold, cand[p], RemoveAt(cand, p));
      var kept := Greedy(g, side, threshold, rest);
      assert cand[p] !in kept;
      DistinctCons(cand[p], kept);
      [cand[p]] + kept
  }

  /** No index of `r` suppresses a later one. */
  predicate NoneSuppressed(g: seq<Detection>, side: real, threshold: real, r: seq<nat>)
    requires ValidIndices(g, r)
  {
    forall i, j :: 0 <= i < j < |r| ==> !Suppresses(g, side, threshold, r[i], r[j])
  }

  /** The indices of `r` point at non-increasing scores. */
  predicate ByScore(g: seq<Detection>, r: seq<nat>)
    requires ValidIndices(g, r)
  {
    forall i, j :: 0 <= i < j < |r| ==> g[r[i]].score >= g[r[j]].score
  }

  /** No kept box suppresses a box kept after it. */
  lemma {:induction false} GreedyKeepsNoOverlap(g: seq<Detection>, side: real, threshold: real, cand: seq<nat>)
    requires ValidIndices(g, cand) && Distinct(cand)
    ensures NoneSuppressed(g, side, threshold, Greedy(g, side, threshold, cand))
    decreases |cand|
  {
    if cand != [] {
      var p := BestPosition(g, cand);
      var rest := Survivors(g, side, threshold, cand[p], RemoveAt(cand, p));
      GreedyKeepsNoOverlap(g, side, threshold, rest);
      var kept := Greedy(g, side, threshold, rest);
      assert Greedy(g, side, threshold, cand) == [cand[p]] + kept;
      NoneSuppressedCons(g, side, threshold, cand[p], kept);
    }
  }

  /** Prepending a box that suppresses none of `kept` keeps NoneSuppressed. */
  lemma NoneSuppressedCons(g: seq<Detection>, side: real, threshold: real, b: nat, kept: seq<nat>)
    requires b < |g| && ValidIndices(g, kept) && NoneSuppressed(g, side, threshold, kept)
    requires forall x :: x in kept ==> !Suppresses(g, side, threshold, b, x)
    ensures NoneSuppressed(g, side, threshold, [b] + kept)
  {
    var r := [b] + kept;
    forall i, j | 0 <= i < j < |r| ensures !Suppresses(g, side, threshold, r[i], r[j]) {
      assert r[j] == kept[j - 1];
      if i > 0 {
        assert r[i] == kept[i - 1];
      }
    }
  }

  /** Kept boxes come out in non-increasing score order. */
  lemma {:induction false} GreedyOrdered(g: seq<Detection>, side: real, threshold: real, cand: seq<nat>)
    requires ValidIndices(g, cand) && Distinct(cand)
    ensures ByScore(g, Greedy(g, side, threshold, cand))
    decreases |cand|
  {
    if cand != [] {
      var p := BestPosition(g, cand);
      var rest := Survivors(g, side, threshold, cand[p], RemoveAt(cand, p));
      GreedyOrdered(g, side, threshold, rest);
      var kept := Greedy(g, side, threshold, rest);
      assert Greedy(g, side, threshold, cand) == [cand[p]] + kept;
      forall x | x in kept ensures g[x].score <= g[cand[p]].score {
        BestIsMaximal(g, cand, x);
      }
      ByScoreCons(g, cand[p], kept);
    }
  }

  /** No candidate scores above the best position's. */
  lemma BestIsMaximal(g: seq<Detection>, cand: seq<nat>, x: nat)
    requires ValidIndices(g, cand) && x in cand
    ensures x < |g| && g[x].score <= g[cand[BestPosition(g, cand)]].score
  {
    var q :| 0 <= q < |cand| && cand[q] == x;
  }

  /** Prepending a box scoring at least as high as all of `kept` keeps ByScore. */
  lemma ByScoreCons(g: seq<Detection>, b: nat, kept: seq<nat>)
    requires b < |g| && ValidIndices(g, kept) && ByScore(g, kept)
    requires forall x :: x in kept ==> g[x].score <= g[b].score
    ensures ByScore(g, [b] + kept)
  {
    var r := [b] + kept;
    forall i, j | 0 <= i < j < |r| ensures g[r[i]].score >= g[r[j]].score {
      assert r[j] == kept[j - 1];
      if i > 0 {
        assert r[i] == kept[i - 1];
      }
    }
  }

  /** Every candidate that is not kept is suppressed by a kept box scoring at least as high. */
  lemma {:induction false} GreedyComplete(g: seq<Detection>, side: real, threshold: real, cand: seq<nat>, x: nat)
    requires ValidIndices(g, cand) && Distinct(cand)
    requires x in cand
    ensures var r := Greedy(g, side, threshold, cand);
      x in r || exists i :: 0 <= i < |r| && Suppresses(g, side, threshold, r[i], x) && g[r[i]].score >= g[x].score
    decreases |cand|
  {
    var p := BestPosition(g, cand);
    var rest := Survivors(g, side, threshold, cand[p], RemoveAt(cand, p));
    var r := Greedy(g, side, threshold, cand);
    assert r == [cand[p]] + Greedy(g, side, threshold, rest);
    var q :| 0 <= q < |cand| && cand[q] == x;
    if x == cand[p] {
      assert r[0] == x;
    } else if Suppresses(g, side, threshold, cand[p], x) {
      assert r[0] == cand[p];
    } else {
      assert x in rest;
      GreedyComplete(g, side, threshold, rest, x);
      var r' := Greedy(g, side, threshold, rest);
      if x in r' {
        assert x in r;
      } else {
        var i :| 0 <= i < |r'| && Suppresses(g, side, threshold, r'[i], x) && g[r'[i]].score >= g[x].score;
        assert r[i + 1] == r'[i];
      }
    }
  }

  /** The indices kept by `tf.image.non_max_suppression(boxes * side, scores, len(boxes),
      iou_threshold, score_threshold=0.001)` on one label group. */
  function SelectIndices(g: seq<Detection>, side: real, threshold: real): (r: seq<nat>)
    ensures ValidIndices(g, r) && Distinct(r)
    ensures forall i :: 0 <= i < |r| ==> g[r[i]].score > ScoreFloor
  {
    Greedy(g, side, threshold, Candidates(g, |g|))
  }

  function Pick(g: seq<Detection>, idx: seq<nat>): (r: seq<Detection>)
    requires ValidIndices(g, idx)
    ensures |r| == |idx| && forall i :: 0 <= i < |idx| ==> r[i] == g[idx[i]]
  {
    seq(|idx|, i requires 0 <= i < |idx| => g[idx[i]])
  }

  /** The survivors of one label group. */
  function SuppressGroup(g: seq<Detection>, side: real, threshold: real): (r: seq<Detection>)
    ensures forall d :: d in r ==> d in g && d.score > ScoreFloor
  {
    Pick(g, SelectIndices(g, side, threshold))
  }

  /** Within a group, no survivor overlaps a later survivor by more than the threshold. */
  lemma SuppressGroupNoOverlap(g: seq<Detection>, side: real, threshold: real)
    ensures var r := SuppressGroup(g, side, threshold);
      forall i, j :: 0 <= i < j < |r| ==> IoU(ScaleBox(r[i].box, side), ScaleBox(r[j].box, side)) <= threshold
  {
    var cand := Candidates(g, |g|);
    var idx := Greedy(g, side, threshold, cand);
    GreedyKeepsNoOverlap(g, side, threshold, cand);
    assert NoneSuppressed(g, side, threshold, idx);
    var r := Pick(g, idx);
    assert r == SuppressGroup(g, side, threshold);
    forall i, j | 0 <= i < j < |r| ensures IoU(ScaleBox(r[i].box, side), ScaleBox(r[j].box, side)) <= threshold {
      assert !Suppresses(g, side, threshold, idx[i], idx[j]);
    }
  }

  /** Within a group, survivors come out best score first. */
  lemma SuppressGroupOrdered(g: seq<Detection>, side: real, threshold: real)
    ensures var r := SuppressGroup(g, side, threshold);
      forall i, j :: 0 <= i < j < |r| ==> r[i].score >= r[j].score
  {
    var cand := Candidates(g, |g|);
    var idx := Greedy(g, side, threshold, cand);
    GreedyOrdered(g, side, threshold, cand);
    assert ByScore(g, idx);
    var r := Pick(g, idx);
    assert r == SuppressGroup(g, side, threshold);
    forall i, j | 0 <= i < j < |r| ensures r[i].score >= r[j].score {
      assert g[idx[i]].score >= g[idx[j]].score;
      assert r[i] == g[idx[i]] && r[j] == g[idx[j]];
    }
  }

  /** A detection of the group above the score floor either survives, or a survivor scoring
      at least as high overlaps it by more than the threshold. */
  lemma SuppressGroupComplete(g: seq<Detection>, side: real, threshold: real, x: nat)
    requires x < |g| && g[x].score > ScoreFloor
    ensures var r := SuppressGroup(g, side, threshold);
      g[x] in r ||
      exists i :: 0 <= i < |r| && IoU(ScaleBox(r[i].box, side), ScaleBox(g[x].box, side)) > threshold
                           && r[i].score >= g[x].score
  {
    var cand := Candidates(g, |g|);
    var idx := Greedy(g, side, threshold, cand);
    GreedyComplete(g, side, threshold, cand, x);
    var r := Pick(g, idx);
    if x in idx {
      var k :| 0 <= k < |idx| && idx[k] == x;
      assert r[k] == g[x];
    } else {
      var i :| 0 <= i < |idx| && Suppresses(g, side, threshold, idx[i], x) && g[idx[i]].score >= g[x].score;
      assert r[i] == g[idx[i]];
    }
  }

  /** The survivors of each label group, one sequence per label, in the order of `labels`. */
  function GroupSurvivors(ds: seq<Detection>, labels: seq<int>, side: real, threshold: real): (ss: seq<seq<Detection>>)
    ensures |ss| == |labels|
  {
    seq(|labels|, k requires 0 <= k < |labels| => SuppressGroup(Group(ds, labels[k]), side, threshold))
  }

  /** The concatenation of the groups, first to last (the `tf.concat` of the source). */
  function Flatten(ss: seq<seq<Detection>>): seq<Detection>
  {
    if ss == [] then [] else Flatten(ss[..|ss| - 1]) + ss[|ss| - 1]
  }

  /** What `object_detection_nms` returns. */
  function NmsSpec(ds: seq<Detection>, side: real, threshold: real): seq<Detection>
  {
    if ds == [] then [] else Flatten(GroupSurvivors(ds, UniqueSorted(LabelsOf(ds)), side, threshold))
  }

  /** `object_detection_nms(raw_scores, width_height, iou_threshold)`. */
  method ObjectDetectionNms(rawScores: seq<Detection>, widthHeight: real, iouThreshold: real)
    returns (combined: seq<Detection>)
    ensures combined == NmsSpec(rawScores, widthHeight, iouThreshold)
  {
    if |rawScores| == 0 {
      return rawScores;
    }
    var dLabels := LabelsOf(rawScores);
    var labels := UniqueSorted(dLabels);
    ghost var ss: seq<seq<Detection>> := GroupSurvivors(rawScores, labels, widthHeight, iouThreshold);
    var nBoxes: seq<Box> := [];
    var nLabels: seq<int> := [];
    var nScores: seq<real> := [];
    ghost var kept: seq<Detection> := [];
    for u := 0 to |labels|
      invariant kept == Flatten(ss[..u])
      invariant nBoxes == BoxesOf(kept) && nLabels == LabelsOf(kept) && nScores == ScoresOf(kept)
    {
      var group := Group(rawScores, labels[u]);
      var selected := SelectIndices(group, widthHeight, iouThreshold);
      ghost var before := kept;
      nBoxes, nLabels, nScores := AppendPicked(group, selected, nBoxes, nLabels, nScores, kept);
      kept := kept + Pick(group, selected);
      assert kept == before + ss[u];
      FlattenSnoc(ss, u);
    }
    assert ss[..|labels|] == ss;
    UnzipZip(kept);
    combined := Zip3(nBoxes, nLabels, nScores);
  }

  /** Appends the three columns of the picked detections `group[selected[t]]`, in order. */
  method AppendPicked(group: seq<Detection>, selected: seq<nat>, boxes: seq<Box>, labels: seq<int>,
                      scores: seq<real>, ghost kept: seq<Detection>)
    returns (boxes': seq<Box>, labels': seq<int>, scores': seq<real>)
    requires ValidIndices(group, selected)
    requires boxes == BoxesOf(kept) && labels == LabelsOf(kept) && scores == ScoresOf(kept)
    ensures var all := kept + Pick(group, selected);
      boxes' == BoxesOf(all) && labels' == LabelsOf(all) && scores' == ScoresOf(all)
  {
    boxes', labels', scores' := boxes, labels, scores;
    ghost var acc := kept;
    for t := 0 to |selected|
      invariant acc == kept + Pick(group, selected[..t])
      invariant boxes' == BoxesOf(acc) && labels' == LabelsOf(acc) && scores' == ScoresOf(acc)
    {
      var ix := selected[t];
      boxes' := boxes' + [group[ix].box];
      labels' := labels' + [group[ix].classId];
      scores' := scores' + [group[ix].score];
      PickSnoc(group, selected, t);
      ColumnsSnoc(acc, group[ix]);
      acc := acc + [group[ix]];
    }
    assert selected[..|selected|] == selected;
  }

  lemma PickSnoc(g: seq<Detection>, idx: seq<nat>, t: nat)
    requires ValidIndices(g, idx) && t < |idx|
    ensures Pick(g, idx[..t + 1]) == Pick(g, idx[..t]) + [g[idx[t]]]
  {
    assert ValidIndices(g, idx[..t + 1]) && ValidIndices(g, idx[..t]);
  }

  lemma FlattenSnoc(ss: seq<seq<Detection>>, u: nat)
    requires u < |ss|
    ensures Flatten(ss[..u + 1]) == Flatten(ss[..u]) + ss[u]
  {
    assert ss[..u + 1][..u] == ss[..u];
  }

  // ----- properties of NmsSpec -----

  lemma NmsEmpty(side: real, threshold: real)
    ensures NmsSpec([], side, threshold) == []
  {
  }

  /** Group `k` holds only detections of label `labels[k]`. */
  predicate Labelled(ss: seq<seq<Detection>>, labels: seq<int>)
  {
    |ss| == |labels| &&
    forall k, i :: 0 <= k < |ss| && 0 <= i < |ss[k]| ==> ss[k][i].classId == labels[k]
  }

  /** Detections appear in non-decreasing label order. */
  predicate SortedByLabel(r: seq<Detection>)
  {
    forall i, j :: 0 <= i < j < |r| ==> r[i].classId <= r[j].classId
  }

  lemma SurvivorsLabelled(ds: seq<Detection>, labels: seq<int>, side: real, threshold: real)
    ensures Labelled(GroupSurvivors(ds, labels, side, threshold), labels)
  {
    var ss: seq<seq<Detection>> := GroupSurvivors(ds, labels, side, threshold);
    forall k: int | 0 <= k < |ss| ensures forall i: int :: 0 <= i < |ss[k]| ==> ss[k][i].classId == labels[k] {
      var g: seq<Detection> := ss[k];
      forall i | 0 <= i < |g| ensures g[i].classId == labels[k] {
        assert g[i] in SuppressGroup(Group(ds, labels[k]), side, threshold);
      }
    }
  }

  lemma {:induction false} FlattenMember(ss: seq<seq<Detection>>, d: Detection)
    requires d in Flatten(ss)
    ensures exists k :: 0 <= k < |ss| && d in ss[k]
  {
    var init: seq<seq<Detection>> := ss[..|ss| - 1];
    assert Flatten(ss) == Flatten(init) + ss[|ss| - 1];
    if d in Flatten(init) {
      FlattenMember(init, d);
      var k :| 0 <= k < |init| && d in init[k];
      assert init[k] == ss[k];
    }
  }

  /** Every output triple is one of the input triples, and passed the score floor. */
  lemma NmsSubset(ds: seq<Detection>, side: real, threshold: real)
    ensures forall d :: d in NmsSpec(ds, side, threshold) ==> d in ds && d.score > ScoreFloor
  {
    if ds != [] {
      var labels := UniqueSorted(LabelsOf(ds));
      var ss: seq<seq<Detection>> := GroupSurvivors(ds, labels, side, threshold);
      forall d | d in Flatten(ss) ensures d in ds && d.score > ScoreFloor {
        FlattenMember(ss, d);
        var k :| 0 <= k < |ss| && d in ss[k];
        assert d in Group(ds, labels[k]);
      }
    }
  }

  lemma LabelledInit(ss: seq<seq<Detection>>, labels: seq<int>)
    requires Labelled(ss, labels) && ss != []
    ensures Labelled(ss[..|ss| - 1], labels[..|labels| - 1])
  {
    var init: seq<seq<Detection>> := ss[..|ss| - 1];
    forall k: int | 0 <= k < |init| ensures forall i: int :: 0 <= i < |init[k]| ==> init[k][i].classId == labels[..|labels| - 1][k] {
      assert init[k] == ss[k];
    }
  }

  /** With every label below `bound`, every flattened detection is below `bound`. */
  lemma {:induction false} FlattenBounded(ss: seq<seq<Detection>>, labels: seq<int>, bound: int)
    requires Labelled(ss, labels)
    requires forall k :: 0 <= k < |labels| ==> labels[k] < bound
    ensures forall i :: 0 <= i < |Flatten(ss)| ==> Flatten(ss)[i].classId < bound
  {
    if ss != [] {
      var n := |ss|;
      var init: seq<seq<Detection>> := ss[..n - 1];
      LabelledInit(ss, labels);
      FlattenBounded(init, labels[..n - 1], bound);
      var a := Flatten(init);
      assert Flatten(ss) == a + ss[n - 1];
      forall i | 0 <= i < |Flatten(ss)| ensures Flatten(ss)[i].classId < bound {
        if i >= |a| {
          assert Flatten(ss)[i] == ss[n - 1][i - |a|];
        }
      }
    }
  }

  /** Appending a group of label `last` to detections all below `last` keeps the order. */
  lemma SortedConcat(a: seq<Detection>, b: seq<Detection>, last: int)
    requires SortedByLabel(a)
    requires forall k :: 0 <= k < |a| ==> a[k].classId < last
    requires forall k :: 0 <= k < |b| ==> b[k].classId == last
    ensures SortedByLabel(a + b)
  {
    var r := a + b;
    forall i, j | 0 <= i < j < |r| ensures r[i].classId <= r[j].classId {
      if j < |a| {
        assert r[i] == a[i] && r[j] == a[j];
      } else if i >= |a| {
        assert r[i] == b[i - |a|] && r[j] == b[j - |a|];
      } else {
        assert r[i] == a[i] && r[j] == b[j - |a|];
      }
    }
  }

  /** Groups of strictly increasing labels flatten into label order. */
  lemma {:induction false} FlattenSorted(ss: seq<seq<Detection>>, labels: seq<int>)
    requires StrictlyIncreasing(labels) && Labelled(ss, labels)
    ensures SortedByLabel(Flatten(ss))
  {
    if ss != [] {
      var n := |ss|;
      var init: seq<seq<Detection>> := ss[..n - 1];
      var last := labels[n - 1];
      LabelledInit(ss, labels);
      assert StrictlyIncreasing(labels[..n - 1]);
      FlattenSorted(init, labels[..n - 1]);
      FlattenBounded(init, labels[..n - 1], last);
      var b: seq<Detection> := ss[n - 1];
      assert forall k :: 0 <= k < |b| ==> b[k].classId == last;
      SortedConcat(Flatten(init), b, last);
      assert Flatten(ss) == Flatten(init) + ss[n - 1];
    }
  }

  /** The survivors come out grouped by label in ascending label order. */
  lemma NmsGroupedAscending(ds: seq<Detection>, side: real, threshold: real)
    ensures SortedByLabel(NmsSpec(ds, side, threshold))
  {
    if ds != [] {
      var labels := UniqueSorted(LabelsOf(ds));
      SurvivorsLabelled(ds, labels, side, threshold);
      FlattenSorted(GroupSurvivors(ds, labels, side, threshold), labels);
    }
  }

  lemma {:induction false} GroupOfConcat(a: seq<Detection>, b: seq<Detection>, l: int)
    ensures Group(a + b, l) == Group(a, l) + Group(b, l)
    decreases |b|
  {
    if b == [] {
      assert a + b == a;
    } else {
      var b' := b[..|b| - 1];
      assert (a + b)[..|a + b| - 1] == a + b';
      GroupOfConcat(a, b', l);
    }
  }

  lemma {:induction false} GroupOfOneLabel(ds: seq<Detection>, l: int)
    requires forall d :: d in ds ==> d.classId == l
    ensures Group(ds, l) == ds
  {
    if ds != [] {
      GroupOfOneLabel(ds[..|ds| - 1], l);
      assert ds[..|ds| - 1] + [ds[|ds| - 1]] == ds;
    }
  }

  lemma {:induction false} GroupOfOtherLabel(ds: seq<Detection>, l: int)
    requires forall d :: d in ds ==> d.classId != l
    ensures Group(ds, l) == []
  {
    if ds != [] {
      GroupOfOtherLabel(ds[..|ds| - 1], l);
    }
  }

  /** Every detection of a labelled group carries that group's label. */
  lemma GroupLabel(ss: seq<seq<Detection>>, labels: seq<int>, k: nat)
    requires Labelled(ss, labels) && k < |ss|
    ensures forall d :: d in ss[k] ==> d.classId == labels[k]
  {
    var b: seq<Detection> := ss[k];
    forall d | d in b ensures d.classId == labels[k] {
      var i :| 0 <= i < |b| && b[i] == d;
    }
  }

  /** Restricted to one label, the flattened groups are the group of that label, or nothing. */
  lemma {:induction false} FlattenGroup(ss: seq<seq<Detection>>, labels: seq<int>, l: int)
    requires StrictlyIncreasing(labels) && Labelled(ss, labels)
    ensures l !in labels ==> Group(Flatten(ss), l) == []
    ensures forall k :: 0 <= k < |labels| && labels[k] == l ==> Group(Flatten(ss), l) == ss[k]
  {
    if ss != [] {
      var n := |ss|;
      var init: seq<seq<Detection>> := ss[..n - 1];
      var pre := labels[..n - 1];
      var last := labels[n - 1];
      LabelledInit(ss, labels);
      assert StrictlyIncreasing(pre);
      FlattenGroup(init, pre, l);
      assert Flatten(ss) == Flatten(init) + ss[n - 1];
      GroupOfConcat(Flatten(init), ss[n - 1], l);
      GroupLabel(ss, labels, n - 1);
      assert labels == pre + [last];
      if l == last {
        FlattenGroupLast(ss, labels, l);
      } else {
        GroupOfOtherLabel(ss[n - 1], l);
        forall k | 0 <= k < |labels| && labels[k] == l ensures Group(Flatten(ss), l) == ss[k] {
          assert pre[k] == l && init[k] == ss[k];
        }
      }
    }
  }

  /** The case of the last label in `FlattenGroup`. */
  lemma FlattenGroupLast(ss: seq<seq<Detection>>, labels: seq<int>, l: int)
    requires StrictlyIncreasing(labels) && Labelled(ss, labels) && ss != []
    requires l == labels[|labels| - 1]
    requires forall d :: d in ss[|ss| - 1] ==> d.classId == l
    requires l !in labels[..|labels| - 1] ==> Group(Flatten(ss[..|ss| - 1]), l) == []
    requires Group(Flatten(ss), l) == Group(Flatten(ss[..|ss| - 1]), l) + Group(ss[|ss| - 1], l)
    ensures Group(Flatten(ss), l) == ss[|ss| - 1]
    ensures forall k :: 0 <= k < |labels| && labels[k] == l ==> k == |labels| - 1
  {
    var n := |ss|;
    var pre := labels[..n - 1];
    GroupOfOneLabel(ss[n - 1], l);
    assert l !in pre by {
      forall k | 0 <= k < |pre| ensures pre[k] != l {
        assert pre[k] == labels[k];
      }
    }
  }

  /** Boxes with different labels are never compared: the survivors of label `l` are the
      survivors of suppressing the detections of label `l` on their own. */
  lemma NmsPerLabel(ds: seq<Detection>, side: real, threshold: real, l: int)
    ensures Group(NmsSpec(ds, side, threshold), l) == SuppressGroup(Group(ds, l), side, threshold)
  {
    if ds == [] {
      assert SelectIndices([], side, threshold) == [];
    } else {
      var labels := UniqueSorted(LabelsOf(ds));
      var ss: seq<seq<Detection>> := GroupSurvivors(ds, labels, side, threshold);
      SurvivorsLabelled(ds, labels, side, threshold);
      FlattenGroup(ss, labels, l);
      if l in labels {
        var k :| 0 <= k < |labels| && labels[k] == l;
        assert ss[k] == SuppressGroup(Group(ds, l), side, threshold);
      } else {
        assert l !in LabelsOf(ds);
        assert Group(ds, l) == [] by {
          forall d | d in ds ensures d.classId != l {
            var i :| 0 <= i < |ds| && ds[i] == d;
            assert LabelsOf(ds)[i] == d.classId;
          }
          GroupOfOtherLabel(ds, l);
        }
        assert SelectIndices([], side, threshold) == [];
      }
    }
  }

  /** Hence adding, removing or moving detections of other labels never changes which
      detections of label `l` survive. */
  lemma NmsLabelIndependence(ds1: seq<Detection>, ds2: seq<Detection>, side: real, threshold: real, l: int)
    requires Group(ds1, l) == Group(ds2, l)
    ensures Group(NmsSpec(ds1, side, threshold), l) == Group(NmsSpec(ds2, side, threshold), l)
  {
    NmsPerLabel(ds1, side, threshold, l);
    NmsPerLabel(ds2, side, threshold, l);
  }
}
