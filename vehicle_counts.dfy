/**
 * Vehicle counting by class and lane, as the backend does it three times over: the MQTT handler
 * (classes named "car" and "motorbike"), the image processor (class ids 0 and 1) and the test
 * script (class ids 0 and 1, keys read directly, no per-class totals). A box is a JSON object; its
 * class and lane are read with `get` and the defaults -1 and "unknown", except in the test script.
 */
module VehicleCounts {
  import opened Wrappers
  import opened Json

  /** How a box's class is recognised. */
  datatype ClassScheme =
    | ByName  // `class_id == "car"` / `class_id == "motorbike"`
    | ById    // `class_id == 0` / `class_id == 1` (so, as in Python, `false` and `0.0` are cars)

  predicate IsCar(scheme: ClassScheme, classId: Value)
  {
    match scheme
    case ByName => EqualsStr(classId, "car")
    case ById => EqualsInt(classId, 0)
  }

  predicate IsMotorbike(scheme: ClassScheme, classId: Value)
  {
    match scheme
    case ByName => EqualsStr(classId, "motorbike")
    case ById => EqualsInt(classId, 1)
  }

  /** The counters a box can add one to. */
  datatype Tally = CarsIn | CarsOut | MotorbikesIn | MotorbikesOut | CarsTotal | MotorbikesTotal

  function ClassOf(box: Dict): Value { Get(box, "class", Int(-1)) }
  function LaneOf(box: Dict): Value { Get(box, "lane", Str("unknown")) }

  /** Whether `box` adds one to counter `t`. */
  predicate Adds(scheme: ClassScheme, t: Tally, box: Dict)
  {
    var classId, lane := ClassOf(box), LaneOf(box);
    match t
    case CarsTotal => IsCar(scheme, classId)
    case CarsIn => IsCar(scheme, classId) && EqualsStr(lane, "in")
    case CarsOut => IsCar(scheme, classId) && EqualsStr(lane, "out")
    case MotorbikesTotal => IsMotorbike(scheme, classId)
    case MotorbikesIn => IsMotorbike(scheme, classId) && EqualsStr(lane, "in")
    case MotorbikesOut => IsMotorbike(scheme, classId) && EqualsStr(lane, "out")
  }

  /** The number of boxes that add one to counter `t`. */
  function Count(scheme: ClassScheme, t: Tally, boxes: seq<Dict>): nat
  {
    if boxes == [] then 0
    else Count(scheme, t, boxes[..|boxes| - 1]) + (if Adds(scheme, t, boxes[|boxes| - 1]) then 1 else 0)
  }

  /** The counters dictionary of `count_vehicles`. */
  datatype Counts = Counts(carsIn: nat, carsOut: nat, motorbikesIn: nat, motorbikesOut: nat, total: nat,
                           carsTotal: nat, motorbikesTotal: nat)

  /** Each counter of a tally over some boxes. */
  predicate Tallies(c: Counts, scheme: ClassScheme, boxes: seq<Dict>)
  {
    && c.carsIn == Count(scheme, CarsIn, boxes) && c.carsOut == Count(scheme, CarsOut, boxes)
    && c.motorbikesIn == Count(scheme, MotorbikesIn, boxes) && c.motorbikesOut == Count(scheme, MotorbikesOut, boxes)
    && c.carsTotal == Count(scheme, CarsTotal, boxes) && c.motorbikesTotal == Count(scheme, MotorbikesTotal, boxes)
  }

  /** No box is both a car and a motorbike, and a box counted in a lane is counted in its class. */
  lemma {:induction false} CountBounds(scheme: ClassScheme, boxes: seq<Dict>)
    ensures Count(scheme, CarsIn, boxes) + Count(scheme, CarsOut, boxes) <= Count(scheme, CarsTotal, boxes)
    ensures Count(scheme, MotorbikesIn, boxes) + Count(scheme, MotorbikesOut, boxes) <= Count(scheme, MotorbikesTotal, boxes)
    ensures Count(scheme, CarsTotal, boxes) + Count(scheme, MotorbikesTotal, boxes) <= |boxes|
  {
    if boxes != [] {
      CountBounds(scheme, boxes[..|boxes| - 1]);
    }
  }

  /** A box without a class, or with any class other than the two, is counted in no counter. */
  lemma UnclassifiedAddsNothing(scheme: ClassScheme, boxes: seq<Dict>, box: Dict, t: Tally)
    requires !IsCar(scheme, ClassOf(box)) && !IsMotorbike(scheme, ClassOf(box))
    ensures Count(scheme, t, boxes + [box]) == Count(scheme, t, boxes)
  {
    assert (boxes + [box])[..|boxes|] == boxes;
  }

  /** In particular a box missing "class" (read as -1) counts toward the total only. */
  lemma MissingClassAddsNothing(scheme: ClassScheme, boxes: seq<Dict>, box: Dict, t: Tally)
    requires "class" !in box
    ensures Count(scheme, t, boxes + [box]) == Count(scheme, t, boxes)
  {
    UnclassifiedAddsNothing(scheme, boxes, box, t);
  }

  /** No class value is both a car and a motorbike, and no lane is both "in" and "out". */
  lemma Exclusive(scheme: ClassScheme, classId: Value, lane: Value)
    ensures !(IsCar(scheme, classId) && IsMotorbike(scheme, classId))
    ensures !(EqualsStr(lane, "in") && EqualsStr(lane, "out"))
  {
    assert "in" != "out" by { assert "in"[0] != "out"[0]; }
    assert "car" != "motorbike" by { assert "car"[0] != "motorbike"[0]; }
  }

  /** One step of the counting loop. */
  lemma CountSnoc(scheme: ClassScheme, t: Tally, boxes: seq<Dict>, i: nat)
    requires i < |boxes|
    ensures Count(scheme, t, boxes[..i + 1]) == Count(scheme, t, boxes[..i]) + (if Adds(scheme, t, boxes[i]) then 1 else 0)
  {
    assert boxes[..i + 1][..i] == boxes[..i];
  }

  /** `count_vehicles(bbox_data)` of the MQTT handler (`ByName`) and of the image processor (`ById`). */
  method CountVehicles(boxes: seq<Dict>, scheme: ClassScheme) returns (c: Counts)
    ensures c.total == |boxes| && Tallies(c, scheme, boxes)
    ensures c.carsIn + c.carsOut <= c.carsTotal && c.motorbikesIn + c.motorbikesOut <= c.motorbikesTotal
    ensures c.carsTotal + c.motorbikesTotal <= c.total
  {
    var carsIn, carsOut, motorbikesIn, motorbikesOut, carsTotal, motorbikesTotal := 0, 0, 0, 0, 0, 0;
    for i := 0 to |boxes|
      invariant carsIn == Count(scheme, CarsIn, boxes[..i]) && carsOut == Count(scheme, CarsOut, boxes[..i])
      invariant motorbikesIn == Count(scheme, MotorbikesIn, boxes[..i])
      invariant motorbikesOut == Count(scheme, MotorbikesOut, boxes[..i])
      invariant carsTotal == Count(scheme, CarsTotal, boxes[..i])
      invariant motorbikesTotal == Count(scheme, MotorbikesTotal, boxes[..i])
    {
      CountSnoc(scheme, CarsIn, boxes, i);
      CountSnoc(scheme, CarsOut, boxes, i);
      CountSnoc(scheme, CarsTotal, boxes, i);
      CountSnoc(scheme, MotorbikesIn, boxes, i);
      CountSnoc(scheme, MotorbikesOut, boxes, i);
      CountSnoc(scheme, MotorbikesTotal, boxes, i);
      var classId := ClassOf(boxes[i]);
      var lane := LaneOf(boxes[i]);
      Exclusive(scheme, classId, lane);
      if IsCar(scheme, classId) {
        carsTotal := carsTotal + 1;
        if EqualsStr(lane, "in") {
          carsIn := carsIn + 1;
        } else if EqualsStr(lane, "out") {
          carsOut := carsOut + 1;
        }
      } else if IsMotorbike(scheme, classId) {
        motorbikesTotal := motorbikesTotal + 1;
        if EqualsStr(lane, "in") {
          motorbikesIn := motorbikesIn + 1;
        } else if EqualsStr(lane, "out") {
          motorbikesOut := motorbikesOut + 1;
        }
      }
    }
    assert boxes[..|boxes|] == boxes;
    CountBounds(scheme, boxes);
    c := Counts(carsIn, carsOut, motorbikesIn, motorbikesOut, |boxes|, carsTotal, motorbikesTotal);
  }

  /** The counters of the test script: no per-class totals. */
  datatype LaneCounts = LaneCounts(carsIn: nat, carsOut: nat, motorbikesIn: nat, motorbikesOut: nat, total: nat)

  /** The KeyError of `bbox["class"]` or `bbox["lane"]`. */
  datatype KeyError = KeyError(key: string)

  predicate HasKeys(box: Dict)
  {
    "class" in box && "lane" in box
  }

  /** Box `i` is the first that lacks one of the two keys. */
  predicate FirstWithoutKeys(boxes: seq<Dict>, i: nat)
  {
    i < |boxes| && !HasKeys(boxes[i]) && forall j :: 0 <= j < i ==> HasKeys(boxes[j])
  }

  /** `count_vehicles(bbox_data)` of the test script: keys are read directly, so the first box
      without "class" (or, having it, without "lane") raises. */
  method CountVehiclesStrict(boxes: seq<Dict>) returns (r: Result<LaneCounts, KeyError>)
    ensures r.Ok? <==> forall i :: 0 <= i < |boxes| ==> HasKeys(boxes[i])
    ensures r.Err? ==> exists i: nat :: FirstWithoutKeys(boxes, i) && r.error == KeyError(if "class" in boxes[i] then "lane" else "class")
    ensures r.Ok? ==> var c := r.value;
      && c.total == |boxes|
      && c.carsIn == Count(ById, CarsIn, boxes) && c.carsOut == Count(ById, CarsOut, boxes)
      && c.motorbikesIn == Count(ById, MotorbikesIn, boxes) && c.motorbikesOut == Count(ById, MotorbikesOut, boxes)
      && c.carsIn + c.carsOut + c.motorbikesIn + c.motorbikesOut <= c.total
  {
    var c := LaneCounts(0, 0, 0, 0, |boxes|);
    for i := 0 to |boxes|
      invariant forall j :: 0 <= j < i ==> HasKeys(boxes[j])
      invariant c.total == |boxes|
      invariant c.carsIn == Count(ById, CarsIn, boxes[..i]) && c.carsOut == Count(ById, CarsOut, boxes[..i])
      invariant c.motorbikesIn == Count(ById, MotorbikesIn, boxes[..i])
      invariant c.motorbikesOut == Count(ById, MotorbikesOut, boxes[..i])
    {
      if "class" !in boxes[i] {
        assert FirstWithoutKeys(boxes, i);
        return Err(KeyError("class"));
      }
      var classId := boxes[i]["class"];
      if "lane" !in boxes[i] {
        assert FirstWithoutKeys(boxes, i);
        return Err(KeyError("lane"));
      }
      var lane := boxes[i]["lane"];
      Exclusive(ById, classId, lane);
      CountSnoc(ById, CarsIn, boxes, i);
      CountSnoc(ById, CarsOut, boxes, i);
      CountSnoc(ById, MotorbikesIn, boxes, i);
      CountSnoc(ById, MotorbikesOut, boxes, i);
      if EqualsInt(classId, 0) {
        if EqualsStr(lane, "in") {
          c := c.(carsIn := c.carsIn + 1);
        } else if EqualsStr(lane, "out") {
          c := c.(carsOut := c.carsOut + 1);
        }
      } else if EqualsInt(classId, 1) {
        if EqualsStr(lane, "in") {
          c := c.(motorbikesIn := c.motorbikesIn + 1);
        } else if EqualsStr(lane, "out") {
          c := c.(motorbikesOut := c.motorbikesOut + 1);
        }
      }
    }
    assert boxes[..|boxes|] == boxes;
    CountBounds(ById, boxes);
    return Ok(c);
  }
}
