# AIoT-AutoEye core, modelled in Dafny

AutoEye is a traffic monitor. An edge device runs an object-detection model on camera frames.
The frames are scored and decoded with the Edge Impulse inference library (`ei_tensorflow/inference.py`).
The device publishes each frame's boxes (class and lane) over MQTT to a Flask backend.
The backend counts cars and motorbikes per lane, derives a traffic status (light, moderate, heavy)
and stores one traffic document per frame. REST routes let clients create and query users and
traffic records, either in MongoDB (`routes.py`) or in memory (`app_simple.py`).

The project models that core and proves what it promises:

- **Inference library**:
  - quantization of inputs and dequantization of outputs (`quantization.dfy`);
  - the box formats (`boxes.dfy`);
  - the per-label non-maximum suppression (`nms.dfy`);
  - the decoders for SSD, YOLOv5, YOLOv7, YOLO-Pro and YOLOv11 (`ssd.dfy`, `yolov5.dfy`, `yolov7.dfy`, `yolopro.dfy`), with the batched top-K extraction (`topk.dfy`);
  - the per-image mAP scoring wrapper (`map_eval.dfy`);
  - the routing and argument checks of `run_model` (`dispatch.dfy`);
  - the label helpers (`labels.dfy`).
- **Backend**:
  - vehicle counting in its three variants (`vehicle_counts.dfy`);
  - the MQTT frame handler and its queue of the ten most recent frames (`mqtt_handler.dfy`, a class);
  - the value checks and document building of `create_traffic` (`routes.dfy`);
  - the in-memory REST app (`app_simple.dfy`, a class over two maps).
- **Shared modules**: `wrappers.dfy` (Option/Result), `json.dfy` (Python values after JSON decoding: truthiness, `dict.get`, `==`, `in`) and `pyint.dfy` (`int()` of a float).

Source paths below are relative to the repository root. `inference.py` stands for
`edge/trainer/resources/libraries/ei_tensorflow/inference.py` in the prose only; the table spells it out.

Two behaviours of the code worth stating up front:

- **mAP rescaling**: `compute_performance_object_detection` divides the raw mAP by `classes_in_gt / num_classes`, the share of classes present in the ground truth, so a sample showing fewer classes is scaled up.
- **YOLOv7 filter**: `process_output_yolov7` applies no confidence filter. The minimum it receives only gets a default.

## Model

| member | source | states |
|---|---|---|
| Quantization.RoundHalfEven | edge/trainer/resources/libraries/ei_tensorflow/inference.py:44 | `np.around`: the result is within half a unit of the input, and an exact tie goes to the even neighbour |
| Quantization.Clamp | edge/trainer/resources/libraries/ei_tensorflow/inference.py:44 | `np.clip`: the result lies in the bounds and equals the input when the input already does |
| Quantization.QuantizeValue | edge/trainer/resources/libraries/ei_tensorflow/inference.py:39-51 | float32 input passes unchanged; int8/uint8 input becomes the clipped rounding of `x / scale + zero_point`, always inside -128..127 or 0..255 |
| Quantization.DequantizeValue | edge/trainer/resources/libraries/ei_tensorflow/inference.py:65-74 | int8/uint8 output becomes `(v - zero_point) * scale`; float32 output is unchanged |
| Quantization.ProcessInput | edge/trainer/resources/libraries/ei_tensorflow/inference.py:29-52 | the input tensor is quantized element by element, length kept |
| Quantization.ProcessOutput | edge/trainer/resources/libraries/ei_tensorflow/inference.py:54-84 | every element is dequantized; a leading batch dimension of 1 is dropped only when `remove_batch`; a shapeless tensor with `remove_batch` fails; well-shapedness is kept |
| Quantization.QuantizeDequantize | edge/trainer/resources/libraries/ei_tensorflow/inference.py:39-74 | round trip: any in-range quantized integer, dequantized and quantized again with the same parameters, comes back unchanged |
| Quantization.QuantizeInRange | edge/trainer/resources/libraries/ei_tensorflow/inference.py:43-44 | when the rounded value is representable, the clip changes nothing |
| Quantization.DequantizeQuantizeError | edge/trainer/resources/libraries/ei_tensorflow/inference.py:39-74 | quantizing and then dequantizing a representable input moves it by at most half a scale step |
| Labels.FloorSqrt | edge/trainer/resources/libraries/ei_tensorflow/inference.py:24 | the integer square root: `r*r <= n < (r+1)*(r+1)` |
| Labels.InferSquareShape | edge/trainer/resources/libraries/ei_tensorflow/inference.py:22-27 | returns a side whose square is the length; fails exactly when no natural number squares to the length |
| Labels.InferSquareOfSquare | edge/trainer/resources/libraries/ei_tensorflow/inference.py:22-27 | a flattened `s` by `s` image gives back `s` |
| Labels.PyIndex | edge/trainer/resources/libraries/ei_tensorflow/inference.py:923 | Python indexing: defined exactly for `-len <= i < len`, negative indices count from the back |
| Labels.FirstIndex | edge/trainer/resources/libraries/ei_tensorflow/inference.py:931 | `list.index`: the first position holding the value |
| Labels.MapTestLabelToTrain | edge/trainer/resources/libraries/ei_tensorflow/inference.py:917-931 | succeeds exactly when the shifted test index is a valid Python index |
| Labels.MapTestLabelMeaning | edge/trainer/resources/libraries/ei_tensorflow/inference.py:917-931 | for every valid Python index, negative ones included (so `test_ix = 0` with 1-based labels reads the last test label): the result is -1 exactly when the training set lacks the label; otherwise, after the same offset, it is the first training position holding the label |
| Labels.MapSameLabelsIdentity | edge/trainer/resources/libraries/ei_tensorflow/inference.py:917-931 | with equal, duplicate-free label lists, mapping is the identity |
| Boxes.CenterToCorner | edge/trainer/resources/libraries/ei_tensorflow/inference.py:478-480 | corner boxes keep the centre's width, height and midpoint |
| Boxes.CenterCornerRoundTrip | edge/trainer/resources/libraries/ei_tensorflow/inference.py:478-480 | centre to corner and back is the identity, in both directions |
| Boxes.ToTfBox | edge/trainer/resources/libraries/ei_tensorflow/inference.py:126 | `[ymin, xmin, ymax, xmax]` holds the same four corner coordinates |
| Boxes.TfBoxRoundTrip | edge/trainer/resources/libraries/ei_tensorflow/inference.py:225-232 | reordering a TensorFlow box into the `[xmin, ymin, xmax, ymax]` the metric library expects undoes `ToTfBox` |
| Boxes.IoU | edge/trainer/resources/libraries/ei_tensorflow/inference.py:189-194 | intersection over union always lies in [0, 1] |
| Boxes.IntersectionBounded | edge/trainer/resources/libraries/ei_tensorflow/inference.py:189-194 | a box's overlap with another never exceeds its own area |
| Boxes.IoUSymmetric | edge/trainer/resources/libraries/ei_tensorflow/inference.py:189-194 | IoU does not depend on argument order |
| Boxes.Zip3 | edge/trainer/resources/libraries/ei_tensorflow/inference.py:161 | `zip` stops at the shortest column and pairs entries position by position |
| Boxes.UnzipZip | edge/trainer/resources/libraries/ei_tensorflow/inference.py:173 | `zip(*ds)` followed by `zip` gives the detections back |
| Boxes.FilterByScore | edge/trainer/resources/libraries/ei_tensorflow/inference.py:164-165 | keeps exactly the detections scoring at least the minimum, each as often as it occurs (multiset count), and all of them when all pass |
| Boxes.FilterByScoreConcat | edge/trainer/resources/libraries/ei_tensorflow/inference.py:164-165 | the comprehension keeps order: filtering a concatenation is the concatenation of the filtered parts |
| Boxes.FilterBySingle | edge/trainer/resources/libraries/ei_tensorflow/inference.py:164-165 | a single detection is kept exactly when its score reaches the minimum; with the concatenation lemma this determines the result |
| Nms.UniqueSorted | edge/trainer/resources/libraries/ei_tensorflow/inference.py:179 | `np.unique`: strictly ascending, same set of labels |
| Nms.Group | edge/trainer/resources/libraries/ei_tensorflow/inference.py:180-184 | the mask keeps exactly the detections of one label |
| Nms.SelectIndices | edge/trainer/resources/libraries/ei_tensorflow/inference.py:189-194 | the kept indices are valid, distinct, and score above the 0.001 floor |
| Nms.GreedyKeepsNoOverlap | edge/trainer/resources/libraries/ei_tensorflow/inference.py:189-194 | no kept box suppresses a box kept after it |
| Nms.GreedyOrdered | edge/trainer/resources/libraries/ei_tensorflow/inference.py:189-194 | kept boxes come out by non-increasing score |
| Nms.GreedyComplete | edge/trainer/resources/libraries/ei_tensorflow/inference.py:189-194 | every candidate that is not kept is suppressed by a kept box scoring at least as high |
| Nms.SuppressGroup | edge/trainer/resources/libraries/ei_tensorflow/inference.py:182-199 | survivors of a label group are members of the group above the score floor |
| Nms.SuppressGroupNoOverlap | edge/trainer/resources/libraries/ei_tensorflow/inference.py:186-199 | no two survivors of a group, scaled by `width_height`, overlap above the IoU threshold |
| Nms.SuppressGroupOrdered | edge/trainer/resources/libraries/ei_tensorflow/inference.py:189-199 | survivors of a group come best score first |
| Nms.SuppressGroupComplete | edge/trainer/resources/libraries/ei_tensorflow/inference.py:186-199 | a detection above the floor survives, or a survivor scoring at least as high overlaps it above the threshold |
| Nms.ObjectDetectionNms | edge/trainer/resources/libraries/ei_tensorflow/inference.py:169-202 | the loop over labels computes the per-label suppression, concatenated in ascending label order |
| Nms.AppendPicked | edge/trainer/resources/libraries/ei_tensorflow/inference.py:196-199 | appends the three columns of the selected detections, in selection order |
| Nms.NmsEmpty | edge/trainer/resources/libraries/ei_tensorflow/inference.py:170-171 | an empty input comes back empty |
| Nms.NmsSubset | edge/trainer/resources/libraries/ei_tensorflow/inference.py:169-202 | every output triple is an input triple that passed the score floor |
| Nms.NmsGroupedAscending | edge/trainer/resources/libraries/ei_tensorflow/inference.py:179-201 | output is grouped by label, in ascending label order |
| Nms.NmsPerLabel | edge/trainer/resources/libraries/ei_tensorflow/inference.py:179-199 | the output restricted to one label is the suppression of that label's group alone |
| Nms.NmsLabelIndependence | edge/trainer/resources/libraries/ei_tensorflow/inference.py:179-199 | detections of other labels never change which detections of a label survive |
| Yolov5.Argmax | edge/trainer/resources/libraries/ei_tensorflow/inference.py:470 | `argmax`: the index of the first maximum |
| Yolov5.FirstArgmaxUnique | edge/trainer/resources/libraries/ei_tensorflow/inference.py:470 | the first maximum is unique, so the class is determined |
| Yolov5.ClassFilter | edge/trainer/resources/libraries/ei_tensorflow/inference.py:467-471 | one first-argmax class per row; fails exactly when some row has no class scores |
| Yolov5.RowBox | edge/trainer/resources/libraries/ei_tensorflow/inference.py:113-126 | the box has the row's width, height and centre, divided by the image size for version 5 |
| Yolov5.DecodeMembership | edge/trainer/resources/libraries/ei_tensorflow/inference.py:111-132 | a candidate is exactly the decoding of a row whose confidence lies in [minimum, 1] |
| Yolov5.DecodeScores | edge/trainer/resources/libraries/ei_tensorflow/inference.py:112 | every candidate scores in [minimum, 1] |
| Yolov5.Version5IsScaledVersion6 | edge/trainer/resources/libraries/ei_tensorflow/inference.py:118-123 | version 5 on pixel rows decodes as version 6 on the same rows divided by the image size |
| Yolov5.ProcessOutputYolov5 | edge/trainer/resources/libraries/ei_tensorflow/inference.py:86-134 | fails exactly with the first raised error (version other than 5/6, no batch, empty class scores, a single row); otherwise returns the NMS (IoU 0.4) of the passing rows, with the first-argmax classes and the 0.01 default minimum |
| Yolov5.DecodeRows | edge/trainer/resources/libraries/ei_tensorflow/inference.py:104-132 | the loop filling `rects`, `labels`, `score_res` and their zip produces exactly the decoded candidates |
| Yolov5.Yolov5Scores | edge/trainer/resources/libraries/ei_tensorflow/inference.py:111-134 | everything returned scores in [minimum, 1] and above the NMS floor |
| Ssd.NameMap | edge/trainer/resources/libraries/ei_tensorflow/inference.py:149 | holds exactly the descriptor names |
| Ssd.NameMapLast | edge/trainer/resources/libraries/ei_tensorflow/inference.py:149 | a name maps to the index of the last descriptor carrying it |
| Ssd.LegacyFallbackAlwaysFails | edge/trainer/resources/libraries/ei_tensorflow/inference.py:155-159 | as written, a model without the three names never gets past the legacy fallback |
| Ssd.LegacyModelRejected | edge/trainer/resources/libraries/ei_tensorflow/inference.py:155-159 | as written, a three-output legacy model fails because descriptors are passed where tensor indices are needed |
| Ssd.TensorIndices | edge/trainer/resources/libraries/ei_tensorflow/inference.py:149-159 | corrected lookup: by name when all three names exist, else descriptor indices 2, 1, 0; fails only with fewer than three outputs |
| Ssd.LegacyModelAccepted | edge/trainer/resources/libraries/ei_tensorflow/inference.py:155-159 | with the corrected lookup, the legacy model reads scores, labels and boxes from outputs 2, 1 and 0 |
| Ssd.ProcessOutputObjectDetection | edge/trainer/resources/libraries/ei_tensorflow/inference.py:136-167 | models the corrected program (see Findings): fails exactly when the corrected lookup fails; agrees with the as-written lookup wherever that succeeds, and succeeds besides exactly on the legacy models the as-written fallback rejects; returns the zip of boxes, labels and scores, filtered in order by the minimum when one is given |
| Yolov7.DecodeRow | edge/trainer/resources/libraries/ei_tensorflow/inference.py:889-901 | corners divided by width and height, class truncated toward zero, score kept |
| Yolov7.ProcessOutputYolov7 | edge/trainer/resources/libraries/ei_tensorflow/inference.py:871-904 | one detection per row, in row order, each the decoding of its row; no row is filtered |
| Yolov7.DecodeRowInUnitSquare | edge/trainer/resources/libraries/ei_tensorflow/inference.py:890-894 | a box inside a positive-size image decodes into the unit square, corners in order |
| TopK.CandidatesMembership | edge/trainer/resources/libraries/ei_tensorflow/inference.py:718 | the candidates are exactly the (anchor, class) pairs scoring above the threshold |
| TopK.SortDescendingProperties | edge/trainer/resources/libraries/ei_tensorflow/inference.py:724 | sorting is a permutation into non-increasing score order |
| TopK.SelectedAreCandidates | edge/trainer/resources/libraries/ei_tensorflow/inference.py:718-726 | `min(M, max_detections)` kept entries, all candidates, best first |
| TopK.TopKDetection | edge/trainer/resources/libraries/ei_tensorflow/inference.py:706-743 | the gathering loop returns exactly the top-K result of the specification |
| TopK.TopKShape | edge/trainer/resources/libraries/ei_tensorflow/inference.py:718-743 | zero detections exactly when nothing passes; otherwise `min(M, max)` entries above the threshold, by non-increasing confidence |
| TopK.TopKFailures | edge/trainer/resources/libraries/ei_tensorflow/inference.py:713-739 | fails exactly on mismatched anchor counts, or on `max_detections == 0` with something to stack |
| TopK.TopKIsTop | edge/trainer/resources/libraries/ei_tensorflow/inference.py:724 | the kept entries are a sub-multiset of the candidates, and no left-out candidate beats a kept one |
| TopK.FirstFailureStable | edge/trainer/resources/libraries/ei_tensorflow/inference.py:756-758 | once an image fails, the batch fails with that image's error |
| TopK.WriteRow | edge/trainer/resources/libraries/ei_tensorflow/inference.py:756-764 | writing an extraction over a -1 row gives its detections followed by padding |
| TopK.TopKResults | edge/trainer/resources/libraries/ei_tensorflow/inference.py:746-765 | fails exactly with the first image's failure; otherwise each image row holds its own extraction followed by -1 padding |
| TopK.FillBatches | edge/trainer/resources/libraries/ei_tensorflow/inference.py:756-765 | the loop over images, writing into the pre-filled arrays, stops at the first failure |
| TopK.ProcessImage | edge/trainer/resources/libraries/ei_tensorflow/inference.py:757-764 | one image: its error, or its padded row written at index `i` only |
| TopK.WriteImage | edge/trainer/resources/libraries/ei_tensorflow/inference.py:759-764 | writes the count and overwrites only the first `num_detections` slots of row `i` |
| TopK.PaddingIsFill | edge/trainer/resources/libraries/ei_tensorflow/inference.py:749-765 | slots past an image's count hold -1; slots before it hold a confidence above the threshold |
| YoloPro.AdaptRows | edge/trainer/resources/libraries/ei_tensorflow/inference.py:777-789 | one `([ymin, xmin, ymax, xmax], cls, conf)` per confidence slot |
| YoloPro.AdaptForStudio | edge/trainer/resources/libraries/ei_tensorflow/inference.py:767-790 | succeeds exactly for one image with at least one slot and consistent lengths |
| YoloPro.AdaptPadded | edge/trainer/resources/libraries/ei_tensorflow/inference.py:767-790 | adapting a padded batch of one image lists its detections, then the 1000 padding slots |
| YoloPro.BoxesOfRows | edge/trainer/resources/libraries/ei_tensorflow/inference.py:807 | `output[..., :4]` read as corner boxes |
| YoloPro.ScoresOfRows | edge/trainer/resources/libraries/ei_tensorflow/inference.py:808 | `output[..., 4:]` |
| YoloPro.TopKThenNms | edge/trainer/resources/libraries/ei_tensorflow/inference.py:810-812 | fails only on a batch of more or fewer than one image; otherwise top-K (max 1000), listing and NMS at 0.4 |
| YoloPro.ProcessOutputYoloPro | edge/trainer/resources/libraries/ei_tensorflow/inference.py:792-813 | fails on rows narrower than four or a batch that is not one image; otherwise the YOLO-Pro tail with the 0.01 default minimum |
| YoloPro.YoloProDetections | edge/trainer/resources/libraries/ei_tensorflow/inference.py:792-813 | every detection returned is a passing (anchor, class) pair's box, class and score above the minimum and the floor; no -1 padding slot survives |
| YoloPro.Transpose | edge/trainer/resources/libraries/ei_tensorflow/inference.py:831 | `.T`: entry `[a][c]` is the input's `[c][a]` |
| YoloPro.TransposeTwice | edge/trainer/resources/libraries/ei_tensorflow/inference.py:831 | transposing twice gives back a non-empty matrix |
| YoloPro.CornerOfRow | edge/trainer/resources/libraries/ei_tensorflow/inference.py:833-842 | centre to corners, divided by the image size unless the coordinates are already normalised |
| YoloPro.Yolov11Boxes | edge/trainer/resources/libraries/ei_tensorflow/inference.py:833-842 | one corner box per anchor |
| YoloPro.ProcessOutputYolov11 | edge/trainer/resources/libraries/ei_tensorflow/inference.py:815-849 | fails exactly with fewer than four channels or a single anchor (which `np.squeeze` collapses, so the slicing raises); otherwise the YOLO-Pro tail on the transposed output |
| MapEval.GtRowOf | edge/trainer/resources/libraries/ei_tensorflow/inference.py:225-228 | ground-truth row: the converted coordinates reordered, the label made 0-based, difficult and crowd 0 |
| MapEval.PredRowOf | edge/trainer/resources/libraries/ei_tensorflow/inference.py:230-232 | prediction row: coordinates reordered, label and confidence kept |
| MapEval.PredRowRoundTrip | edge/trainer/resources/libraries/ei_tensorflow/inference.py:230-232 | a prediction row gives its detection back |
| MapEval.DistinctCountBounds | edge/trainer/resources/libraries/ei_tensorflow/inference.py:251 | a non-empty label list has between 1 and its length distinct labels |
| MapEval.ComputePerformance | edge/trainer/resources/libraries/ei_tensorflow/inference.py:204-256 | no ground truth gives mAP 1 without detections and 0 with them; otherwise `mAP * classes_in_gt == raw_mAP * num_classes`; fails exactly on ground truth with zero classes; the columns zip back to the detections |
| MapEval.RescaledRange | edge/trainer/resources/libraries/ei_tensorflow/inference.py:246-254 | a raw mAP equal to the share of classes present scores 1; one between 0 and that share scores between 0 and 1 |
| MapEval.AllClassesPresent | edge/trainer/resources/libraries/ei_tensorflow/inference.py:251-254 | with every class present, the raw mAP is kept |
| MapEval.MapObjectDetectionBbox | edge/trainer/resources/libraries/ei_tensorflow/inference.py:1209-1221 | scores exactly the predictions with a score of at least the minimum, in their order and with their multiplicity |
| MapEval.CollectMeaning | edge/trainer/resources/libraries/ei_tensorflow/inference.py:1200-1207 | the batch loop succeeds exactly when every sample does, holding their values in order; otherwise it gives the first error |
| MapEval.MapObjectDetectionBboxes | edge/trainer/resources/libraries/ei_tensorflow/inference.py:1187-1207 | a shape that is not three long fails; otherwise the samples' outcomes are collected in order up to the first that raises, with minimum 0 by default |
| MapEval.MapBboxesMeaning | edge/trainer/resources/libraries/ei_tensorflow/inference.py:1187-1207 | succeeds exactly when every prediction has a ground truth and scores; then holds each sample's performance in order |
| Dispatch.RouteFailures | edge/trainer/resources/libraries/ei_tensorflow/inference.py:289-331 | routing fails exactly on an unknown mode, missing details, a missing minimum or an unknown tag, each with its own error |
| Dispatch.KnownTagsRouted | edge/trainer/resources/libraries/ei_tensorflow/inference.py:294-329 | a tag has a routine exactly when it is one of the fourteen known tags |
| Dispatch.VectorModesIgnoreDetails | edge/trainer/resources/libraries/ei_tensorflow/inference.py:289-290 | the four vector modes ignore every object-detection argument |
| Dispatch.Yolov5Versions | edge/trainer/resources/libraries/ei_tensorflow/inference.py:300-305 | only `yolov5` (version 6) and `yolov5v5-drpai` (version 5) reach the YOLOv5 decoder, so it never rejects the version |
| Dispatch.Yolov11Normalization | edge/trainer/resources/libraries/ei_tensorflow/inference.py:322-327 | `yolov11` reads normalised and `yolov11-abs` absolute coordinates |
| Dispatch.RunModel | edge/trainer/resources/libraries/ei_tensorflow/inference.py:282-331 | the plan carries the routed routine; a routing failure is passed through unchanged |
| Dispatch.DetectionPlanChecked | edge/trainer/resources/libraries/ei_tensorflow/inference.py:371-575 | a detection routine that passes its checks has ground truth, a nonzero minimum and a three-entry shape giving height and width; FOMO and YOLOv7 are square, SSD has a class count |
| Dispatch.CheckOrder | edge/trainer/resources/libraries/ei_tensorflow/inference.py:371-383 | SSD reports a bad shape before missing ground truth; the other routines do the reverse |
| VehicleCounts.CountBounds | backend/mqtt_handler.py:46-61 | per class, in + out never exceed the class total; cars + motorbikes never exceed the boxes |
| VehicleCounts.UnclassifiedAddsNothing | backend/image_processor.py:137-152 | a box of neither class changes no counter |
| VehicleCounts.MissingClassAddsNothing | backend/mqtt_handler.py:47 | a box without "class" (read as -1) changes no counter |
| VehicleCounts.CountVehicles | backend/mqtt_handler.py:34-63 | each counter tallies the boxes of its class and lane (class names "car"/"motorbike" here, class ids 0/1 in `backend/image_processor.py:125-154`); total is the box count; the per-class bounds hold |
| VehicleCounts.CountVehiclesStrict | test.py:91-116 | succeeds exactly when every box has "class" and "lane"; otherwise the KeyError names the first missing key; lane counters as above |
| Mqtt.BoxesOf | backend/mqtt_handler.py:116-124 | a `bbox` holds boxes exactly when it is a list of objects, "" or {}; falsy ones hold none |
| Mqtt.FalsyBoxesEmpty | backend/mqtt_handler.py:123-149 | a falsy `bbox` that can be counted holds no boxes |
| Mqtt.FrameCountsBounds | backend/mqtt_handler.py:121-149 | the stored counts never exceed the box count; lane counts sum the per-class lane counts; without boxes all are zero |
| Mqtt.CountFrame | backend/mqtt_handler.py:121-149 | the counts come from `count_vehicles` when there are boxes, from the fallback comprehensions otherwise |
| Mqtt.TrafficStatus | backend/mqtt_handler.py:151-158 | an "unknown" or falsy status becomes light (< 5), moderate (< 15) or heavy; any other status is kept |
| Mqtt.TrafficStatusMonotone | backend/mqtt_handler.py:152-158 | the derived status is monotone in the vehicle count |
| Mqtt.DropEmpty | backend/mqtt_handler.py:179-182 | keeps exactly the entries that are neither None nor "" |
| Mqtt.RawDocKept | backend/mqtt_handler.py:161-182 | clean-up keeps every count, the status and the source of a frame document |
| Mqtt.FrameDocProperties | backend/mqtt_handler.py:110-182 | a stored frame holds no None and no "", and carries its counts, a status and the source "mqtt_edge_device" |
| Mqtt.Window | backend/mqtt_handler.py:183-186 | the most recent frames: never more than ten |
| Mqtt.PushWindow | backend/mqtt_handler.py:183-186 | pushing onto the window of a history gives the window of the longer history |
| Mqtt.MqttHandler.constructor | backend/mqtt_handler.py:19-25 | starts disconnected, without a queue |
| Mqtt.MqttHandler.OnConnect | backend/mqtt_handler.py:65-77 | code 0 connects and starts an empty queue; any other code only marks the handler disconnected |
| Mqtt.MqttHandler.OnDisconnect | backend/mqtt_handler.py:79-82 | marks the handler disconnected and keeps the queue |
| Mqtt.MqttHandler.Enqueue | backend/mqtt_handler.py:183-186 | a full queue loses its oldest frame, then the new frame is appended; at most ten are kept |
| Mqtt.MqttHandler.ProcessTrafficData | backend/mqtt_handler.py:103-208 | a handler that has never connected answers False and never reaches the database (reading the missing queue raises); otherwise a countable frame with a collection present is queued, cleaned, and nothing else changes the queue; True exactly when, in addition, the database insert succeeds, so a frame whose insert raises stays queued although the answer is False |
| Routes.Strip | backend/routes.py:25 | the stripped text neither starts nor ends with Python white space, and is the input when the input does neither |
| Routes.SafeInt | backend/routes.py:21-27 | None for None and "", otherwise `int(value)` or None where it raises |
| Routes.SafeIntOfPrinted | backend/routes.py:21-27 | round trip: `safe_int(str(i)) == i` for every integer |
| Routes.SafeIntNoDigits | backend/routes.py:21-27 | text without a digit is never an integer |
| Routes.NormalizeStatus | backend/routes.py:163-164 | a status outside light/moderate/heavy/unknown becomes "unknown"; a valid one is kept |
| Routes.NormalizeIdempotent | backend/routes.py:163-164 | normalising twice is normalising once |
| Routes.DropNone | backend/routes.py:166-167 | keeps exactly the non-None entries, values unchanged |
| Routes.Lower | backend/routes.py:133 | ASCII lower-casing, character by character |
| Routes.LastDot | backend/routes.py:133 | the position of the last dot |
| Routes.FileExtension | backend/routes.py:132-136 | "" for a name without a dot; never contains a dot |
| Routes.FileExtensionOfSuffix | backend/routes.py:132-136 | the extension is the lower-cased text after the last dot, whatever precedes it |
| Routes.NoDotRejected | backend/routes.py:132-138 | a file name without a dot is refused |
| Routes.UpperCaseAccepted | backend/routes.py:132-138 | the check ignores case: "photo.PNG" is allowed |
| Routes.Assemble | backend/routes.py:110-123 | the document carries the given id, status and integer vehicle count |
| Routes.JsonDoc | backend/routes.py:95-123 | a falsy body is a 400 and a truthy non-object a 500; then a truthy image that is not base64 is a 400, and a `vehicle_count` that `int()` rejects a 500; otherwise the document stores `int(vehicle_count)` (default 0), the body's truthy `_id` or the generated one, and the body's status (default "unknown") |
| Routes.FormDoc | backend/routes.py:124-160 | fails (400) exactly on an upload with a disallowed extension; a missing or unreadable vehicle count is stored as 0 |
| Routes.Build | backend/routes.py:94-160 | a JSON request is built as `JsonDoc` says and a form as `FormDoc` says; either way an id, a status and an integer count, or a 400/500 failure |
| Routes.Stored | backend/routes.py:162-167 | the stored document has the normalised status and no None; it keeps the id, the count and every other non-None field |
| Routes.CreateTraffic | backend/routes.py:88-187 | 500 without a database; the build's own code on failure; 409 for an existing id; 201 with exactly the stored document otherwise |
| Routes.CreatedDocument | backend/routes.py:162-171 | a created document has a valid status, no None, a fresh id and an integer count |
| AppSimple.CreateUserCode | backend/app_simple.py:16-41 | 400 for a body that is not an object or whose `_id` is missing, falsy or unhashable; 409 exactly for an existing id; 201 exactly for a fresh id with a personal name and email; so 400 also for a fresh id without them |
| AppSimple.SharedIdChecks | backend/app_simple.py:16-110 | `create_user` refuses a body exactly as `create_traffic_data` does, and creates a user exactly where a record would be created and the personal object has a name and an email |
| AppSimple.CreateTrafficCode | backend/app_simple.py:84-110 | 400 exactly for a body without a usable `_id` (not an object; missing, falsy or unhashable id), 409 exactly for an existing id, 201 exactly for a fresh one |
| AppSimple.WithTimestamp | backend/app_simple.py:103-104 | the record always has a timestamp, and keeps every field of the body |
| AppSimple.Overlay | backend/app_simple.py:146-148 | location, vehicle_count and status are copied from the body where present; no other field changes |
| AppSimple.OverlayUpToAll | backend/app_simple.py:146-148 | the update loop over the three fields computes exactly the overlay |
| AppSimple.Matching | backend/app_simple.py:113-125 | keeps exactly the records matching the given non-empty filters |
| AppSimple.MatchingProperties | backend/app_simple.py:113-125 | filtering is idempotent, and no filters keep every record |
| AppSimple.App.constructor | backend/app_simple.py:7-8 | both stores start empty |
| AppSimple.App.CreateUser | backend/app_simple.py:16-41 | 201 stores the body under its `_id`; any other answer changes nothing |
| AppSimple.App.GetUsers | backend/app_simple.py:44-46 | 200 with exactly the stored users |
| AppSimple.App.GetUser | backend/app_simple.py:49-53 | 200 with the user exactly when it exists, else 404 |
| AppSimple.App.UpdateUser | backend/app_simple.py:56-73 | 404 for an unknown user, 400 for a falsy body; on 200 only `personal` is replaced, and only when the body has it |
| AppSimple.App.DeleteUser | backend/app_simple.py:76-81 | removes exactly that user, or answers 404 and changes nothing |
| AppSimple.App.CreateTrafficData | backend/app_simple.py:84-110 | 201 stores the body, stamped when it has no timestamp; any other answer changes nothing |
| AppSimple.App.GetTrafficData | backend/app_simple.py:113-125 | 200 with exactly the matching records |
| AppSimple.App.GetTrafficById | backend/app_simple.py:128-132 | 200 with the record exactly when it exists, else 404 |
| AppSimple.App.UpdateTrafficData | backend/app_simple.py:135-153 | 404 for an unknown record, 400 for a falsy body; on 200 the record becomes its overlay with the body |
| AppSimple.App.DeleteTrafficData | backend/app_simple.py:156-161 | removes exactly that record, or answers 404 and changes nothing |
| PyInt.Trunc | edge/trainer/resources/libraries/ei_tensorflow/inference.py:900 | `int()` of a float truncates toward zero |

## Left out

- The TensorFlow Lite interpreter (`invoke`, `prepare_interpreter`, `get_tensor`) is left out. SSD output tensors are functions from tensor index to contents.
- `run_vector_inference`, `classify_keras` and `flatten_model_output` are not modelled. They are I/O or outside this model.
- The YOLOX decoder, the Akida YOLOv2 decoder, the TAO decoders and the internals of FOMO segmentation scoring are left out. `Dispatch` models only their routing and argument checks.
- YOLOX decoding needs exponentials and grids over real tensors.
- The Akida decoder also reads an anchors file from disk.
- `tf.image.non_max_suppression` is modelled as greedy IoU suppression: best score first, earliest index on ties, score floor 0.001 strict. TensorFlow's internal corner reordering of boxes is not modelled.
- The COCO mAP library (`mean_average_precision`) is a parameter of `MapEval`. So is `ei_tensorflow.utils.convert_box_coords`.
- `y_data` is a typed record (sample id and boxes), not a free dictionary.
- Floating point is modelled as real arithmetic: float32 rounding, NaN and infinities are left out.
- `math.sqrt` is modelled as the exact integer square root.
- Quantization.ProcessInput: the final `astype` after the clip never wraps, because the clip keeps values in range. The tensor conversion itself is not modelled.
- Yolov5.ProcessOutputYolov5: a batch with exactly one row is modelled as an error. `np.squeeze` leaves a zero-dimensional score array there, and `len(scores)` raises.
- Yolov5.ProcessOutputYolov5: `requires` a nonzero image size for version 5. The division there is on Python floats, so a zero size raises ZeroDivisionError, which is not modelled. The same applies to `Yolov5.RowBox`.
- Yolov7.ProcessOutputYolov7: `requires` a nonzero width and height. The source divides numpy values there, so a zero size gives infinite or NaN boxes with a warning rather than an exception. Non-finite floats are not modelled.
- YoloPro.ProcessOutputYolov11: `requires` a nonzero image size for absolute coordinates, for the same reason: `boxes /= img_size` on an array gives non-finite boxes.
- Ssd.ProcessOutputObjectDetection: labels are integers. The float labels a model may emit are not modelled.
- Ssd.ProcessOutputObjectDetection: models the corrected tensor lookup `Ssd.TensorIndices`. As written, the source raises on every legacy model without the three output names; `Ssd.TensorIndicesAsWritten` models that (see Findings), and the decoder's contract states where the two lookups differ.
- Yolov7.ProcessOutputYolov7: the minimum confidence is accepted and ignored, as in the source.
- YoloPro.ProcessOutputYolov11: modelled on the squeezed two-dimensional output. `Rectangular` is required because numpy arrays are always rectangular.
- YoloPro.ProcessOutputYoloPro: the row-width check stands in for numpy slicing, which never fails. Rows narrower than four are reported as a shape error.
- TopK.TopKDetection: `np.argsort` is not stable. The model uses a stable descending insertion order, which is one of the orders the source may produce. `TopKIsTop` states the property that holds for every tie order.
- MapEval.MapObjectDetectionBboxes: `width, height = input_shape[0], input_shape[1]`, as the source unpacks them. No swap is modelled.
- Integer parsing in `Routes.SafeInt` accepts Python white space (tab to carriage return, the separators 0x1C-0x1F, space, and the Unicode space characters), an optional sign and ASCII digits. Underscores and non-ASCII digits are not modelled, and neither are `int()` on other types such as lists.
- Routes.Lower: ASCII only.
- Python's hash equality of `1`, `1.0` and `True` as dictionary keys is not modelled. Keys are compared as JSON values.
- The order of dictionary values in listings (`GET /users`, `GET /traffic`) is not modelled: they are sets or maps.
- The MQTT client, its threads, `on_message` JSON decoding, `start`, `stop` and `publish_test_message` are left out. They are network I/O.
- The MongoDB insert and lookup are left out. The id of a database-generated document, an existing-ids set, the database's availability and, for the MQTT handler, whether `insert_one` succeeds are parameters.
- `base64` validation and encoding, `datetime.now()` and the generated traffic id are parameters.
- The drawing functions of `image_processor.py` (OpenCV) and the file handling and drawing of `test.py` are left out as image I/O. Only their `count_vehicles` is modelled.
- The users routes of `routes.py` (`create_user`, `get_users`, `get_user`, `delete_user`) and `get_traffic` and the rest of its traffic routes are not modelled. They are thin wrappers over MongoDB queries; the in-memory equivalents are modelled in `AppSimple`.

## Findings

| source | as written | input that shows it | evidently intended | confidence | as-written member | corrected member |
|---|---|---|---|---|---|---|
| edge/trainer/resources/libraries/ei_tensorflow/inference.py:155-159 | the legacy fallback passes the output descriptors themselves (`output_details[2]`, a dict) to `interpreter.get_tensor`, which takes a tensor index | a model whose three outputs are not named `StatefulPartitionedCall:1..3`, e.g. outputs `boxes`, `classes`, `scores` | read `output_details[2]['index']`, `[1]['index']`, `[0]['index']` | not executed | Ssd.LegacyModelRejected | Ssd.LegacyModelAccepted |
