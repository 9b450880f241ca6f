/**
 * `run_model`: the mode and, for object detection, the model's last-layer tag choose the
 * inference routine; each `run_*` routine then checks its arguments before it invokes the
 * interpreter and decodes. The model stops at the routing decision and the argument checks:
 * the interpreter, the decoders' inputs and the scoring are the other modules.
 */
module Dispatch {
  import opened Wrappers
  import Json
  import Yolov5

  /** The inference routine `run_model` hands over to. */
  datatype Routine =
    | VectorInference            // run_vector_inference
    | SsdInference               // run_object_detection_inference
    | AkidaYolov2Inference       // run_akida_yolov2_inference
    | Yolov5Inference(version: int)
    | YoloxInference
    | Yolov7Inference
    | SegmentationInference      // run_segmentation_inference (FOMO)
    | TaoInference               // tao_decoding.inference_and_evaluate
    | YoloProInference
    | Yolov11Inference(normalized: bool)

  datatype RunError =
    | MissingDetails             // assert objdet_details is not None
    | MissingMinimumAssert       // assert minimum_confidence_rating is not None
    | InvalidLastLayer(tag: string)
    | InvalidMode(mode: string)
    | MissingYData               // ValueError('y_data must be provided ...')
    | MissingNumClasses          // ValueError('num_classes must be provided ...')
    | MissingMinimum             // ValueError('minimum_confidence_rating must be provided ...')
    | ShapeNotThree              // `height, width, _channels = specific_input_shape` fails to unpack
    | NotSquare                  // Exception('Only square input is supported ...')

  /** The modes whose output is a plain vector. */
  predicate IsVectorMode(mode: string)
  {
    mode == "classification" || mode == "regression" || mode == "anomaly-gmm" || mode == "visual-anomaly"
  }

  /** The routine for an object-detection last-layer tag, if the tag is known. */
  function RoutineFor(tag: string): Option<Routine>
  {
    if tag == "mobilenet-ssd" then Some(SsdInference)
    else if tag == "yolov2-akida" then Some(AkidaYolov2Inference)
    else if tag == "yolov5" then Some(Yolov5Inference(6))
    else if tag == "yolov5v5-drpai" then Some(Yolov5Inference(5))
    else if tag == "yolox" then Some(YoloxInference)
    else if tag == "yolov7" then Some(Yolov7Inference)
    else if tag == "fomo" then Some(SegmentationInference)
    else if tag in ["tao-retinanet", "tao-ssd", "tao-yolov3", "tao-yolov4"] then Some(TaoInference)
    else if tag == "yolo-pro" then Some(YoloProInference)
    else if tag == "yolov11" then Some(Yolov11Inference(true))
    else if tag == "yolov11-abs" then Some(Yolov11Inference(false))
    else None
  }

  /** The routing part of `run_model(mode, ..., minimum_confidence_rating, ..., objdet_details)`;
      `lastLayer` is `objdet_details.last_layer`, or None when the details are None. */
  function Route(mode: string, lastLayer: Option<string>, minimum: Option<real>): Result<Routine, RunError>
  {
    if IsVectorMode(mode) then Ok(VectorInference)
    else if mode == "object-detection" then
      if lastLayer.None? then Err(MissingDetails)
      else if minimum.None? then Err(MissingMinimumAssert)
      else if RoutineFor(lastLayer.value).None? then Err(InvalidLastLayer(lastLayer.value))
      else Ok(RoutineFor(lastLayer.value).value)
    else Err(InvalidMode(mode))
  }

  /** The full list of tags `run_model` accepts. */
  const KnownTags: seq<string> := ["mobilenet-ssd", "yolov2-akida", "yolov5", "yolov5v5-drpai", "yolox", "yolov7",
                                   "fomo", "tao-retinanet", "tao-ssd", "tao-yolov3", "tao-yolov4", "yolo-pro",
                                   "yolov11", "yolov11-abs"]

  /** Routing fails exactly on an unknown mode, on object detection without details or without a
      minimum, and on a tag outside the known list; each with its own error. */
  lemma RouteFailures(mode: string, lastLayer: Option<string>, minimum: Option<real>)
    ensures var r := Route(mode, lastLayer, minimum);
      && (r.Ok? <==> IsVectorMode(mode) || (mode == "object-detection" && lastLayer.Some? && minimum.Some? && lastLayer.value in KnownTags))
      && (!IsVectorMode(mode) && mode != "object-detection" ==> r == Err(InvalidMode(mode)))
      && (mode == "object-detection" && lastLayer.None? ==> r == Err(MissingDetails))
      && (mode == "object-detection" && lastLayer.Some? && minimum.None? ==> r == Err(MissingMinimumAssert))
      && (mode == "object-detection" && lastLayer.Some? && minimum.Some? && lastLayer.value !in KnownTags ==>
            r == Err(InvalidLastLayer(lastLayer.value)))
  {
    if lastLayer.Some? {
      KnownTagsRouted(lastLayer.value);
    }
  }

  /** A tag has a routine exactly when it is in the known list. */
  lemma KnownTagsRouted(tag: string)
    ensures RoutineFor(tag).Some? <==> tag in KnownTags
  {
    if tag in KnownTags {
      var i :| 0 <= i < |KnownTags| && KnownTags[i] == tag;
      assert i < 14;
    }
  }

  /** The vector modes ignore every object-detection argument. */
  lemma VectorModesIgnoreDetails(mode: string, lastLayer: Option<string>, minimum: Option<real>)
    requires IsVectorMode(mode)
    ensures Route(mode, lastLayer, minimum) == Route(mode, None, None) == Ok(VectorInference)
  {
  }

  /** Only the two YOLOv5 tags reach the YOLOv5 decoder, and with version 6 and 5 respectively, so
      routing never selects a version the decoder rejects. */
  lemma Yolov5Versions(mode: string, lastLayer: Option<string>, minimum: Option<real>, output: seq<seq<Yolov5.Row>>)
    requires Route(mode, lastLayer, minimum).Ok? && Route(mode, lastLayer, minimum).value.Yolov5Inference?
    ensures mode == "object-detection" && lastLayer.Some?
    ensures lastLayer.value == "yolov5" ==> Route(mode, lastLayer, minimum).value.version == 6
    ensures lastLayer.value == "yolov5v5-drpai" ==> Route(mode, lastLayer, minimum).value.version == 5
    ensures lastLayer.value == "yolov5" || lastLayer.value == "yolov5v5-drpai"
    ensures Yolov5.Failure(output, Route(mode, lastLayer, minimum).value.version) != Some(Yolov5.UnsupportedVersion)
  {
  }

  /** `yolov11` reads normalised coordinates and `yolov11-abs` absolute ones, and no other tag
      reaches the YOLOv11 decoder. */
  lemma Yolov11Normalization(tag: string)
    requires RoutineFor(tag).Some? && RoutineFor(tag).value.Yolov11Inference?
    ensures tag == "yolov11" || tag == "yolov11-abs"
    ensures RoutineFor(tag).value.normalized <==> tag == "yolov11"
  {
  }

  /** The image size a `run_*` routine reads from `specific_input_shape`. */
  datatype ImageSize = ImageSize(width: int, height: int)

  /** `height, width, _channels = specific_input_shape`. */
  function Unpack(shape: seq<int>): Result<ImageSize, RunError>
  {
    if |shape| != 3 then Err(ShapeNotThree) else Ok(ImageSize(shape[1], shape[0]))
  }

  /** `not y_data`, `not num_classes` and `not minimum_confidence_rating` in Python. */
  predicate NoNumClasses(numClasses: Option<int>)
  {
    numClasses.None? || numClasses.value == 0
  }

  /** The argument checks of the routine, in its own order, before decoding. The minimum is the
      one `run_model` asserted present. The SSD routine unpacks the shape (and invokes the
      interpreter) before it checks its arguments; the others check `y_data` and the minimum
      first. Only the SSD routine checks `num_classes`; FOMO and YOLOv7 require a square input. The
      vector and TAO routines check nothing here. */
  function Checks(routine: Routine, shape: seq<int>, minimum: real, yData: Json.Value,
                  numClasses: Option<int>): Result<Option<ImageSize>, RunError>
  {
    match routine
    case VectorInference => Ok(None)
    case TaoInference => Ok(None)
    case SsdInference =>
      var size :- Unpack(shape);
      if !Json.Truthy(yData) then Err(MissingYData)
      else if NoNumClasses(numClasses) then Err(MissingNumClasses)
      else if minimum == 0.0 then Err(MissingMinimum)
      else Ok(Some(size))
    case _ =>
      if !Json.Truthy(yData) then Err(MissingYData)
      else if minimum == 0.0 then Err(MissingMinimum)
      else
        var size :- Unpack(shape);
        if (routine.SegmentationInference? || routine.Yolov7Inference?) && size.width != size.height then Err(NotSquare)
        else Ok(Some(size))
  }

  /** What `run_model` decides before any inference: the routine and the image size it unpacked. */
  datatype Plan = Plan(routine: Routine, size: Option<ImageSize>)

  /** `run_model` up to the call into the interpreter. */
  function RunModel(mode: string, lastLayer: Option<string>, minimum: Option<real>, shape: seq<int>,
                    yData: Json.Value, numClasses: Option<int>): (r: Result<Plan, RunError>)
    ensures r.Ok? ==> Route(mode, lastLayer, minimum) == Ok(r.value.routine)
    ensures Route(mode, lastLayer, minimum).Err? ==> r == Route(mode, lastLayer, minimum).PropagateFailure()
  {
    var routine :- Route(mode, lastLayer, minimum);
    if routine.VectorInference? then Ok(Plan(routine, None))
    else
      var size :- Checks(routine, shape, minimum.value, yData, numClasses);
      Ok(Plan(routine, size))
  }

  /** Every object-detection routine other than TAO that gets past its checks has ground truth, a
      nonzero minimum and a three-entry shape, whose first two entries are its height and width;
      FOMO and YOLOv7 also have a square input and the SSD routine a nonzero class count. */
  lemma DetectionPlanChecked(mode: string, lastLayer: Option<string>, minimum: Option<real>, shape: seq<int>,
                             yData: Json.Value, numClasses: Option<int>)
    requires RunModel(mode, lastLayer, minimum, shape, yData, numClasses).Ok?
    ensures var p := RunModel(mode, lastLayer, minimum, shape, yData, numClasses).value;
      !p.routine.VectorInference? && !p.routine.TaoInference? ==>
        && mode == "object-detection" && minimum.Some? && minimum.value != 0.0 && Json.Truthy(yData)
        && |shape| == 3 && p.size == Some(ImageSize(shape[1], shape[0]))
        && (p.routine.SegmentationInference? || p.routine.Yolov7Inference? ==> shape[0] == shape[1])
        && (p.routine.SsdInference? ==> !NoNumClasses(numClasses))
  {
  }

  /** A detection routine other than SSD and TAO reports missing ground truth before a bad
      shape, whereas SSD reports the bad shape first. */
  lemma CheckOrder(routine: Routine, shape: seq<int>, minimum: real, yData: Json.Value, numClasses: Option<int>)
    requires !routine.VectorInference? && !routine.TaoInference?
    requires !Json.Truthy(yData) && |shape| != 3
    ensures routine.SsdInference? ==> Checks(routine, shape, minimum, yData, numClasses) == Err(ShapeNotThree)
    ensures !routine.SsdInference? ==> Checks(routine, shape, minimum, yData, numClasses) == Err(MissingYData)
  {
  }
}
