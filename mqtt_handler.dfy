/**
 * The MQTT side of the backend: every frame an edge device publishes is counted, given a traffic
 * status, cleaned of empty fields and appended to a bounded queue of the ten most recent frames
 * before it is saved. The MQTT client, its threads and the database insert are outside the model;
 * whether the traffic collection exists, the document id (built from the clock) and the current
 * time are parameters.
 */
module Mqtt {
  import opened Wrappers
  import opened Json
  import opened VehicleCounts

  /** How many recent frames the handler keeps. */
  const RecentCapacity: nat := 10

  /** Why `process_traffic_data` gives up (its `except` branch returns False). */
  datatype FrameError =
    | Unsized      // `len(bbox_data)` of None, a bool or a number
    | NotBoxes     // counting iterates something other than a list of objects

  /** The boxes a `bbox` value holds: a list of JSON objects, or an empty string or object. */
  function BoxesOf(v: Value): (r: Result<seq<Dict>, FrameError>)
    ensures r.Ok? && v.Arr? ==> |r.value| == |v.items| && forall i :: 0 <= i < |v.items| ==> v.items[i] == Obj(r.value[i])
    ensures r.Ok? && !v.Arr? ==> r.value == []
    ensures r.Ok? <==> (v.Arr? && forall i :: 0 <= i < |v.items| ==> v.items[i].Obj?) || v == Str("") || v == Obj(map[])
  {
    match v
    case Null => Err(Unsized)
    case Bool(_) => Err(Unsized)
    case Int(_) => Err(Unsized)
    case Real(_) => Err(Unsized)
    case Str(s) => if s == "" then Ok([]) else Err(NotBoxes)
    case Obj(fields) => if fields == map[] then Ok([]) else Err(NotBoxes)
    case Arr(items) =>
      if forall i :: 0 <= i < |items| ==> items[i].Obj? then Ok(seq(|items|, i requires 0 <= i < |items| => items[i].fields))
      else Err(NotBoxes)
  }

  /** A falsy `bbox` that holds boxes at all holds none. */
  lemma FalsyBoxesEmpty(v: Value)
    requires BoxesOf(v).Ok? && !Truthy(v)
    ensures BoxesOf(v).value == []
  {
  }

  /** The number of boxes with `b.get(key) == value`. */
  function CountMatching(boxes: seq<Dict>, key: string, value: string): nat
  {
    if boxes == [] then 0
    else CountMatching(boxes[..|boxes| - 1], key, value) + (if EqualsStr(Get(boxes[|boxes| - 1], key, Null), value) then 1 else 0)
  }

  /** The counts the stored document carries. */
  datatype FrameCounts = FrameCounts(cars: nat, motorbikes: nat, laneIn: nat, laneOut: nat, total: nat)

  /** The counts of a frame: from `count_vehicles` when there are boxes, otherwise from the
      fallback comprehensions. */
  function FrameCountsOf(bbox: Value, boxes: seq<Dict>): FrameCounts
  {
    if Truthy(bbox) then
      FrameCounts(Count(ByName, CarsTotal, boxes), Count(ByName, MotorbikesTotal, boxes),
                  Count(ByName, CarsIn, boxes) + Count(ByName, MotorbikesIn, boxes),
                  Count(ByName, CarsOut, boxes) + Count(ByName, MotorbikesOut, boxes), |boxes|)
    else
      FrameCounts(CountMatching(boxes, "class", "car"), CountMatching(boxes, "class", "motorbike"),
                  CountMatching(boxes, "lane", "in"), CountMatching(boxes, "lane", "out"), |boxes|)
  }

  /** The counts of a frame never exceed its number of boxes, lane by lane or class by class; the
      lane counts are the sums of the per-class lane counts; without boxes all are zero. */
  lemma FrameCountsBounds(bbox: Value, boxes: seq<Dict>)
    requires BoxesOf(bbox) == Ok(boxes)
    ensures var f := FrameCountsOf(bbox, boxes);
      && f.total == |boxes| && f.cars + f.motorbikes <= f.total && f.laneIn + f.laneOut <= f.total
      && (Truthy(bbox) ==> f.laneIn == Count(ByName, CarsIn, boxes) + Count(ByName, MotorbikesIn, boxes))
      && (Truthy(bbox) ==> f.laneOut == Count(ByName, CarsOut, boxes) + Count(ByName, MotorbikesOut, boxes))
      && (!Truthy(bbox) ==> f == FrameCounts(0, 0, 0, 0, 0))
  {
    CountBounds(ByName, boxes);
  }

  /** The counting part of `process_traffic_data`. */
  method CountFrame(bbox: Value, boxes: seq<Dict>) returns (f: FrameCounts)
    ensures f == FrameCountsOf(bbox, boxes)
  {
    if Truthy(bbox) {
      var counts := CountVehicles(boxes, ByName);
      f := FrameCounts(counts.carsTotal, counts.motorbikesTotal, counts.carsIn + counts.motorbikesIn,
                       counts.carsOut + counts.motorbikesOut, counts.total);
    } else {
      f := FrameCounts(CountMatching(boxes, "class", "car"), CountMatching(boxes, "class", "motorbike"),
                       CountMatching(boxes, "lane", "in"), CountMatching(boxes, "lane", "out"), |boxes|);
    }
  }

  /** The status rule: a status of "unknown" or a falsy one is replaced by light (fewer than 5
      vehicles), moderate (fewer than 15) or heavy; any other status is kept. */
  function TrafficStatus(status: Value, total: int): (r: Value)
    ensures EqualsStr(status, "unknown") || !Truthy(status) ==>
      r == Str(if total < 5 then "light" else if total < 15 then "moderate" else "heavy")
    ensures !EqualsStr(status, "unknown") && Truthy(status) ==> r == status
  {
    if EqualsStr(status, "unknown") || !Truthy(status) then
      if total < 5 then Str("light") else if total < 15 then Str("moderate") else Str("heavy")
    else status
  }

  /** The recomputed status is monotone in the number of vehicles. */
  lemma TrafficStatusMonotone(a: int, b: int)
    requires a <= b
    ensures TrafficStatus(Null, a) == Str("heavy") ==> TrafficStatus(Null, b) == Str("heavy")
    ensures TrafficStatus(Null, b) == Str("light") ==> TrafficStatus(Null, a) == Str("light")
  {
  }

  /** `{k: v for k, v in doc.items() if v is not None and v != ""}`. */
  function DropEmpty(doc: Dict): (r: Dict)
    ensures forall k :: k in r <==> k in doc && doc[k] != Null && doc[k] != Str("")
    ensures forall k :: k in r ==> r[k] == doc[k]
  {
    map k | k in doc && doc[k] != Null && doc[k] != Str("") :: doc[k]
  }

  /** The document `process_traffic_data` stores for one frame, before clean-up. */
  function RawDoc(data: Dict, docId: string, now: string, f: FrameCounts): Dict
  {
    map[
      "_id" := Str(docId),
      "timestamp" := Get(data, "timestamp", Str(now + "Z")),
      "location" := Get(data, "location", Str("Edge Device Camera")),
      "lane2_in" := Int(0),
      "lane2_out" := Int(0),
      "image" := Get(data, "image", Str("")),
      "bbox_data" := Get(data, "bbox", Arr([])),
      "edge_id" := Get(data, "edge_id", Str("unknown")),
      // the entries the properties below are about come last
      "vehicle_count" := Int(f.total),
      "car_count" := Int(f.cars),
      "motorbike_count" := Int(f.motorbikes),
      "lane1_in" := Int(f.laneIn),
      "lane1_out" := Int(f.laneOut),
      "status" := TrafficStatus(Get(data, "status", Str("unknown")), f.total),
      "source" := Str("mqtt_edge_device")
    ]
  }

  /** The cleaned document for one frame, or why the frame is dropped. */
  function FrameDoc(data: Dict, docId: string, now: string): Result<Dict, FrameError>
  {
    var bbox := Get(data, "bbox", Arr([]));
    var boxes :- BoxesOf(bbox);
    Ok(DropEmpty(RawDoc(data, docId, now, FrameCountsOf(bbox, boxes))))
  }

  /** The document holds the counts `f`, a status and its source. */
  predicate StoresCounts(d: Dict, f: FrameCounts)
  {
    && "vehicle_count" in d && d["vehicle_count"] == Int(f.total)
    && "car_count" in d && d["car_count"] == Int(f.cars)
    && "motorbike_count" in d && d["motorbike_count"] == Int(f.motorbikes)
    && "lane1_in" in d && d["lane1_in"] == Int(f.laneIn)
    && "lane1_out" in d && d["lane1_out"] == Int(f.laneOut)
    && "status" in d && "source" in d && d["source"] == Str("mqtt_edge_device")
  }

  /** Clean-up keeps every count, the status and the source of a raw document. */
  lemma RawDocKept(data: Dict, docId: string, now: string, f: FrameCounts)
    ensures StoresCounts(DropEmpty(RawDoc(data, docId, now, f)), f)
  {
    var raw := RawDoc(data, docId, now, f);
    RawDocEntries(data, docId, now, f);
    KeptByDropEmpty(raw, "vehicle_count");
    KeptByDropEmpty(raw, "car_count");
    KeptByDropEmpty(raw, "motorbike_count");
    KeptByDropEmpty(raw, "lane1_in");
    KeptByDropEmpty(raw, "lane1_out");
    KeptByDropEmpty(raw, "status");
    KeptByDropEmpty(raw, "source");
  }

  lemma KeptByDropEmpty(doc: Dict, k: string)
    requires k in doc && doc[k] != Null && doc[k] != Str("")
    ensures k in DropEmpty(doc) && DropEmpty(doc)[k] == doc[k]
  {
  }

  lemma RawDocEntries(data: Dict, docId: string, now: string, f: FrameCounts)
    ensures var raw := RawDoc(data, docId, now, f);
      && raw["vehicle_count"] == Int(f.total) && raw["car_count"] == Int(f.cars)
      && raw["motorbike_count"] == Int(f.motorbikes) && raw["lane1_in"] == Int(f.laneIn)
      && raw["lane1_out"] == Int(f.laneOut) && raw["source"] == Str("mqtt_edge_device")
      && "status" in raw && raw["status"] != Null && raw["status"] != Str("")
  {
  }

  /** A stored frame holds no None and no empty string, and carries its counts, a status and its
      source; the counts are bounded as `FrameCountsBounds` states. */
  lemma FrameDocProperties(data: Dict, docId: string, now: string)
    requires FrameDoc(data, docId, now).Ok?
    ensures var d := FrameDoc(data, docId, now).value;
      var bbox := Get(data, "bbox", Arr([]));
      && (forall k :: k in d ==> d[k] != Null && d[k] != Str(""))
      && StoresCounts(d, FrameCountsOf(bbox, BoxesOf(bbox).value))
  {
    var bbox := Get(data, "bbox", Arr([]));
    RawDocKept(data, docId, now, FrameCountsOf(bbox, BoxesOf(bbox).value));
  }

  /** The queue update: drop the oldest frame of a full queue, then append. */
  function Push(frames: seq<Dict>, doc: Dict): seq<Dict>
  {
    (if |frames| >= RecentCapacity then frames[1..] else frames) + [doc]
  }

  /** The last (at most) ten frames of a history. */
  function Window(history: seq<Dict>): (w: seq<Dict>)
    ensures |w| <= RecentCapacity
  {
    if |history| <= RecentCapacity then history else history[|history| - RecentCapacity..]
  }

  /** Pushing onto the window of a history gives the window of the longer history: the queue
      always holds the most recent frames, oldest first, and never more than ten. */
  lemma PushWindow(history: seq<Dict>, doc: Dict)
    ensures Push(Window(history), doc) == Window(history + [doc])
    ensures |Push(Window(history), doc)| <= RecentCapacity
  {
    var n := |history|;
    if n >= RecentCapacity {
      assert Window(history)[1..] + [doc] == (history + [doc])[n + 1 - RecentCapacity..];
    }
  }

  class MqttHandler {
    /** `is_connected` */
    var connected: bool
    /** Whether `on_connect` has created `current_data_mqtt` (`is_init_val`). */
    var initialised: bool
    /** The contents of `current_data_mqtt`, oldest first. */
    var recentFrames: seq<Dict>

    ghost predicate Valid()
      reads this
    {
      |recentFrames| <= RecentCapacity
    }

    constructor()
      ensures Valid() && !connected && !initialised && recentFrames == []
    {
      connected := false;
      initialised := false;
      recentFrames := [];
    }

    /** `on_connect`: a successful connection starts a fresh queue. */
    method OnConnect(rc: int)
      requires Valid()
      modifies this
      ensures Valid()
      ensures rc == 0 ==> connected && initialised && recentFrames == []
      ensures rc != 0 ==> !connected && initialised == old(initialised) && recentFrames == old(recentFrames)
    {
      if rc == 0 {
        recentFrames := [];
        initialised := true;
        connected := true;
      } else {
        connected := false;
      }
    }

    /** `on_disconnect` */
    method OnDisconnect()
      modifies this
      ensures !connected && initialised == old(initialised) && recentFrames == old(recentFrames)
    {
      connected := false;
    }

    /** The `current_data_mqtt` update: a full queue loses its oldest frame first. */
    method Enqueue(doc: Dict)
      requires Valid()
      modifies this
      ensures Valid()
      ensures recentFrames == Push(old(recentFrames), doc)
      ensures connected == old(connected) && initialised == old(initialised)
    {
      if |recentFrames| >= RecentCapacity {
        recentFrames := recentFrames[1..];
      }
      recentFrames := recentFrames + [doc];
    }

    /** `process_traffic_data(mqtt_data)`. Before the first successful connection the queue
        attribute does not exist: reading it raises, the exception handler answers False and the
        database is never called. Afterwards a countable frame is queued first and then handed to
        the database, whose outcome is `inserted`; the answer is True exactly when that insert
        succeeds, so a frame whose insert raises stays queued although the answer is False. */
    method ProcessTrafficData(data: Dict, collectionAvailable: bool, inserted: bool, docId: string, now: string)
      returns (saved: bool)
      requires Valid()
      modifies this
      ensures Valid()
      ensures saved <==> collectionAvailable && FrameDoc(data, docId, now).Ok? && old(initialised) && inserted
      ensures collectionAvailable && FrameDoc(data, docId, now).Ok? && old(initialised) ==>
        recentFrames == Push(old(recentFrames), FrameDoc(data, docId, now).value)
      ensures !(collectionAvailable && FrameDoc(data, docId, now).Ok? && old(initialised)) ==>
        recentFrames == old(recentFrames)
      ensures connected == old(connected) && initialised == old(initialised)
    {
      if !collectionAvailable {
        return false;
      }
      var bbox := Get(data, "bbox", Arr([]));
      var boxes := BoxesOf(bbox);
      if boxes.Err? {
        return false;
      }
      var counts := CountFrame(bbox, boxes.value);
      var doc := DropEmpty(RawDoc(data, docId, now, counts));
      if !initialised {
        return false;
      }
      Enqueue(doc);
      return inserted;
    }
  }
}
