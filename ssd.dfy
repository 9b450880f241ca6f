/**
 * The MobileNet-SSD decoder `process_output_object_detection`: the score, label and box tensors
 * are found by name (`StatefulPartitionedCall:1/2/3`) with a positional fallback for models that
 * lack those names, zipped into `(box, label, score)` triples and filtered by the minimum
 * confidence when one is given. The interpreter is a parameter: `scoresAt(i)`, `labelsAt(i)` and
 * `rectsAt(i)` stand for `interpreter.get_tensor(i)[0].tolist()` read as scores, labels and boxes.
 */
module Ssd {
  import opened Wrappers
  import opened Boxes

  /** One entry of `output_details`. */
  datatype OutputDetail = OutputDetail(name: string, index: int)

  datatype LookupError =
    | TooFewOutputs      // the fallback reads `output_details[2]`
    | DescriptorNotIndex // the fallback hands a descriptor, not its index, to `get_tensor`

  const ScoresName: string := "StatefulPartitionedCall:1"
  const LabelsName: string := "StatefulPartitionedCall:2"
  const RectsName: string := "StatefulPartitionedCall:3"

  /** `{o['name']: o['index'] for o in output_details}`: a later entry overrides an earlier one. */
  function NameMap(details: seq<OutputDetail>): (m: map<string, int>)
    ensures forall k :: k in m <==> exists i :: 0 <= i < |details| && details[i].name == k
  {
    if details == [] then map[]
    else
      var last := details[|details| - 1];
      var m := NameMap(details[..|details| - 1]);
      assert forall k :: k in m ==> exists i :: 0 <= i < |details| && details[i].name == k by {
        forall k | k in m ensures exists i :: 0 <= i < |details| && details[i].name == k {
          var i :| 0 <= i < |details| - 1 && details[..|details| - 1][i].name == k;
          assert details[i].name == k;
        }
      }
      m[last.name := last.index]
  }

  /** The name map sends a name to the index of the last descriptor carrying it. */
  lemma {:induction false} NameMapLast(details: seq<OutputDetail>, i: nat)
    requires i < |details|
    requires forall j :: i < j < |details| ==> details[j].name != details[i].name
    ensures NameMap(details)[details[i].name] == details[i].index
  {
    var n := |details| - 1;
    if i < n {
      NameMapLast(details[..n], i);
      assert details[..n][i] == details[i];
    }
  }

  predicate HasNamedOutputs(details: seq<OutputDetail>)
  {
    var m := NameMap(details);
    ScoresName in m && LabelsName in m && RectsName in m
  }

  /** The tensor indices `(scores, labels, rects)` the code reads, as written: the fallback
      passes the descriptors themselves to `get_tensor`. */
  function TensorIndicesAsWritten(details: seq<OutputDetail>): Result<(int, int, int), LookupError>
  {
    var m := NameMap(details);
    if HasNamedOutputs(details) then Ok((m[ScoresName], m[LabelsName], m[RectsName]))
    else if |details| < 3 then Err(TooFewOutputs)
    else Err(DescriptorNotIndex)
  }

  /** As written, a model without the three names never gets past the fallback. */
  lemma LegacyFallbackAlwaysFails(details: seq<OutputDetail>)
    requires !HasNamedOutputs(details)
    ensures TensorIndicesAsWritten(details).Err?
  {
  }

  /** The legacy model of the comment: three unnamed outputs in the order rects, labels, scores. */
  lemma LegacyModelRejected()
    ensures TensorIndicesAsWritten([OutputDetail("boxes", 7), OutputDetail("classes", 8), OutputDetail("scores", 9)])
         == Err(DescriptorNotIndex)
  {
    var ds := [OutputDetail("boxes", 7), OutputDetail("classes", 8), OutputDetail("scores", 9)];
    assert ScoresName !in NameMap(ds) by {
      assert ds[0].name != ScoresName && ds[1].name != ScoresName && ds[2].name != ScoresName;
    }
  }

  /** The tensor indices `(scores, labels, rects)` as evidently intended: by name, or else the
      indices of descriptors 2, 1 and 0. */
  function TensorIndices(details: seq<OutputDetail>): (r: Result<(int, int, int), LookupError>)
    ensures r.Err? <==> !HasNamedOutputs(details) && |details| < 3
    ensures HasNamedOutputs(details) ==> r == TensorIndicesAsWritten(details)
    ensures !HasNamedOutputs(details) && |details| >= 3 ==>
      r == Ok((details[2].index, details[1].index, details[0].index))
  {
    var m := NameMap(details);
    if HasNamedOutputs(details) then Ok((m[ScoresName], m[LabelsName], m[RectsName]))
    else if |details| < 3 then Err(TooFewOutputs)
    else Ok((details[2].index, details[1].index, details[0].index))
  }

  /** The legacy model of the comment decodes with the corrected lookup. */
  lemma LegacyModelAccepted()
    ensures TensorIndices([OutputDetail("boxes", 7), OutputDetail("classes", 8), OutputDetail("scores", 9)])
         == Ok((9, 8, 7))
  {
    LegacyModelRejected();
  }

  /** `process_output_object_detection(output_details, interpreter, minimum_confidence_rating)`,
      with the corrected tensor lookup. Where the lookup as written succeeds it agrees with the
      corrected one; the corrected program succeeds in addition exactly on the legacy models the
      as-written fallback rejects. */
  function ProcessOutputObjectDetection(details: seq<OutputDetail>, scoresAt: int -> seq<real>,
                                        labelsAt: int -> seq<int>, rectsAt: int -> seq<Box>,
                                        minimum: Option<real>): (r: Result<seq<Detection>, LookupError>)
    ensures r.Err? <==> TensorIndices(details).Err?
    ensures TensorIndicesAsWritten(details).Ok? ==> r.Ok? && TensorIndices(details) == TensorIndicesAsWritten(details)
    ensures r.Ok? && TensorIndicesAsWritten(details).Err? <==> TensorIndicesAsWritten(details) == Err(DescriptorNotIndex)
    ensures r.Ok? ==>
      var (si, li, ri) := TensorIndices(details).value;
      var combined := Zip3(rectsAt(ri), labelsAt(li), scoresAt(si));
      (minimum.None? ==> r.value == combined) &&
      (minimum.Some? ==> r.value == FilterByScore(combined, minimum.value)
                         && forall d :: d in r.value <==> d in combined && d.score >= minimum.value)
  {
    var (si, li, ri) :- TensorIndices(details);
    var combined := Zip3(rectsAt(ri), labelsAt(li), scoresAt(si));
    if minimum.Some? then Ok(FilterByScore(combined, minimum.value)) else Ok(combined)
  }
}
