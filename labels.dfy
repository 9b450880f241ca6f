/**
 * Two small helpers of the inference library: `infer_square_shape`, which recovers the side of a
 * flattened square image, and `map_test_label_to_train`, which translates a test-set label index
 * into the index of the same label in the training set.
 */
module Labels {
  import opened Wrappers

  /** The integer square root, `int(math.sqrt(n))` for exactly represented arguments. */
  function FloorSqrt(n: nat): (r: nat)
    ensures r * r <= n < (r + 1) * (r + 1)
  {
    if n == 0 then 0
    else
      var s := FloorSqrt(n - 1);
      if (s + 1) * (s + 1) <= n then s + 1 else s
  }

  /** A side whose square is the length is the floor square root. */
  lemma SquareRootUnique(n: nat, s: nat)
    requires s * s == n
    ensures FloorSqrt(n) == s
  {
    var r := FloorSqrt(n);
    if r < s {
      assert r + 1 <= s;
      MonotoneSquare(r + 1, s);
    } else if r > s {
      assert s + 1 <= r;
      MonotoneSquare(s + 1, r);
    }
  }

  lemma MonotoneSquare(a: nat, b: nat)
    requires a <= b
    ensures a * a <= b * b
  {
    assert a * a <= a * b <= b * b;
  }

  datatype ShapeError = NotSquare(length: nat)  // `raise Exception("can't derive ...")`

  /** `infer_square_shape(x)`: the side `s` with `s * s == len(x)`, or an error. */
  function InferSquareShape<T>(x: seq<T>): (r: Result<nat, ShapeError>)
    ensures r.Ok? ==> r.value * r.value == |x|
    ensures r.Err? ==> r == Err(NotSquare(|x|)) && forall s: nat :: s * s != |x|
  {
    var side := FloorSqrt(|x|);
    if |x| == side * side then Ok(side)
    else
      assert forall s: nat :: s * s != |x| by {
        forall s: nat | s * s == |x| ensures false {
          SquareRootUnique(|x|, s);
        }
      }
      Err(NotSquare(|x|))
  }

  /** The side of a flattened `s` by `s` image is `s`. */
  lemma InferSquareOfSquare<T>(x: seq<T>, s: nat)
    requires |x| == s * s
    ensures InferSquareShape(x) == Ok(s)
  {
    SquareRootUnique(|x|, s);
  }

  datatype LabelError = TestIndexOutOfRange  // the IndexError of `test_labels[...]`

  /** Python's `xs[i]` with negative indices counting from the back. */
  function PyIndex<T>(xs: seq<T>, i: int): (r: Result<T, LabelError>)
    ensures r.Ok? <==> -|xs| <= i < |xs|
    ensures 0 <= i < |xs| ==> r == Ok(xs[i])
    ensures -|xs| <= i < 0 ==> r == Ok(xs[|xs| + i])
  {
    if 0 <= i < |xs| then Ok(xs[i])
    else if -|xs| <= i < 0 then Ok(xs[|xs| + i])
    else Err(TestIndexOutOfRange)
  }

  /** Python's `xs.index(x)`: the first position holding `x`. */
  function FirstIndex(xs: seq<string>, x: string): (i: nat)
    requires x in xs
    ensures i < |xs| && xs[i] == x
    ensures forall j :: 0 <= j < i ==> xs[j] != x
  {
    if xs[0] == x then 0 else 1 + FirstIndex(xs[1..], x)
  }

  /** `map_test_label_to_train(test_ix, train_labels, test_labels, zero_index)`: labels are 1-indexed
      for FOMO (`zero_index` false), so the index is shifted down by one before the lookup and the
      training index shifted up by one after it; a label the training set lacks maps to -1. */
  function MapTestLabelToTrain(testIx: int, trainLabels: seq<string>, testLabels: seq<string>,
                               zeroIndex: bool): (r: Result<int, LabelError>)
    ensures var adjust := if zeroIndex then 0 else 1;
      r.Ok? <==> -|testLabels| <= testIx - adjust < |testLabels|
  {
    var adjust := if zeroIndex then 0 else 1;
    var actualLabel :- PyIndex(testLabels, testIx - adjust);
    if actualLabel !in trainLabels then Ok(-1)
    else Ok(FirstIndex(trainLabels, actualLabel) + adjust)
  }

  /** A mapped index names, in the training set and with the same offset, the first occurrence of
      the test label (read with Python indexing, so a negative shifted index counts from the back);
      -1 means the training set lacks it. */
  lemma MapTestLabelMeaning(testIx: int, trainLabels: seq<string>, testLabels: seq<string>, zeroIndex: bool)
    requires -|testLabels| <= testIx - (if zeroIndex then 0 else 1) < |testLabels|
    ensures var adjust := if zeroIndex then 0 else 1;
      var actual := PyIndex(testLabels, testIx - adjust).value;
      var r := MapTestLabelToTrain(testIx, trainLabels, testLabels, zeroIndex);
      && r.Ok?
      && (r.value == -1 <==> actual !in trainLabels)
      && (actual in trainLabels ==>
            && 0 <= r.value - adjust < |trainLabels| && trainLabels[r.value - adjust] == actual
            && forall j :: 0 <= j < r.value - adjust ==> trainLabels[j] != actual)
  {
  }

  /** When the test and training label lists agree and hold no duplicates, mapping is the identity. */
  lemma MapSameLabelsIdentity(testIx: int, labels: seq<string>, zeroIndex: bool)
    requires 0 <= testIx - (if zeroIndex then 0 else 1) < |labels|
    requires forall i, j :: 0 <= i < j < |labels| ==> labels[i] != labels[j]
    ensures MapTestLabelToTrain(testIx, labels, labels, zeroIndex) == Ok(testIx)
  {
    var adjust := if zeroIndex then 0 else 1;
    var k := FirstIndex(labels, labels[testIx - adjust]);
    assert k == testIx - adjust;
  }
}
