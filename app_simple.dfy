/**
 * The in-memory variant of the backend (`app_simple.py`): two module-level dictionaries, users
 * and traffic records keyed by their `_id`, and the REST handlers that create, read, update,
 * delete and filter them, each answering with an HTTP status code. Request bodies are JSON values;
 * ids taken from the URL are strings. The clock is a parameter.
 */
module AppSimple {
  import opened Wrappers
  import opened Json

  /** Python raises TypeError when a list or a dict is used as a dictionary key. */
  predicate Hashable(v: Value)
  {
    !v.Arr? && !v.Obj?
  }

  /** The fields `update_traffic_data` copies from the request. */
  const TrafficFields: seq<string> := ["location", "vehicle_count", "status"]

  /** The status code `create_user` answers for a body, given the current users: 400 for a body
      without a usable id, 409 for an existing id, then 400 unless the personal object has a
      name and an email. */
  function CreateUserCode(users: map<Value, Dict>, data: Value): (code: int)
    ensures code == 201 || code == 400 || code == 409
    ensures !HasUsableId(data) ==> code == 400
    ensures code == 409 <==> HasUsableId(data) && BodyId(data) in users
    ensures code == 201 <==> HasUsableId(data) && BodyId(data) !in users && HasNameAndEmail(data)
  {
    if !Truthy(data) || !data.Obj? then 400
    else
      var userId := Get(data.fields, "_id", Null);
      if !Truthy(userId) || !Hashable(userId) then 400
      else if userId in users then 409
      else
        var personal := Get(data.fields, "personal", Obj(map[]));
        if !personal.Obj? then 400
        else if !Truthy(Get(personal.fields, "name", Null)) || !Truthy(Get(personal.fields, "email", Null)) then 400
        else 201
  }

  /** The id under which a body is stored. */
  function BodyId(data: Value): Value
  {
    if data.Obj? then Get(data.fields, "_id", Null) else Null
  }

  /** A body that is an object whose `_id` is truthy and can be a dictionary key. Such a body is
      never empty, so it is truthy too. */
  predicate HasUsableId(data: Value)
  {
    data.Obj? && Truthy(BodyId(data)) && Hashable(BodyId(data))
  }

  /** `personal.get("name")` and `personal.get("email")` are both truthy. */
  predicate HasNameAndEmail(data: Value)
    requires data.Obj?
  {
    var personal := Get(data.fields, "personal", Obj(map[]));
    personal.Obj? && Truthy(Get(personal.fields, "name", Null)) && Truthy(Get(personal.fields, "email", Null))
  }

  /** `create_user` judges the id exactly as `create_traffic_data` does and then adds the check
      of the personal object: wherever the traffic handler refuses a body, the user handler gives
      the same answer, and a user is created only where a record would be. */
  lemma SharedIdChecks(entries: map<Value, Dict>, data: Value)
    ensures CreateTrafficCode(entries, data) != 201 ==> CreateUserCode(entries, data) == CreateTrafficCode(entries, data)
    ensures CreateUserCode(entries, data) == 201 ==> CreateTrafficCode(entries, data) == 201
    ensures CreateTrafficCode(entries, data) == 201 ==> (CreateUserCode(entries, data) == 201 <==> HasNameAndEmail(data))
  {
  }

  /** The status code `create_traffic_data` answers for a body: 400 without a usable id, 409
      for an existing one, 201 for a fresh one. */
  function CreateTrafficCode(records: map<Value, Dict>, data: Value): (code: int)
    ensures code == 201 || code == 400 || code == 409
    ensures code == 400 <==> !HasUsableId(data)
    ensures code == 409 <==> HasUsableId(data) && BodyId(data) in records
    ensures code == 201 <==> HasUsableId(data) && BodyId(data) !in records
  {
    if !Truthy(data) || !data.Obj? then 400
    else
      var trafficId := Get(data.fields, "_id", Null);
      if !Truthy(trafficId) || !Hashable(trafficId) then 400
      else if trafficId in records then 409
      else 201
  }

  /** The record `create_traffic_data` stores: the body, with a timestamp added when absent. */
  function WithTimestamp(fields: Dict, now: string): (r: Dict)
    ensures "timestamp" in r
    ensures forall k :: k in fields ==> k in r && r[k] == fields[k]
    ensures forall k :: k in r ==> k in fields || k == "timestamp"
  {
    if "timestamp" in fields then fields else fields["timestamp" := Str(now + "Z")]
  }

  /** A record with the updatable fields present in `data` copied over it. */
  function Overlay(record: Dict, data: Dict): (r: Dict)
    ensures forall k :: k in r <==> k in record || (k in TrafficFields && k in data)
    ensures forall k :: k in r && k in TrafficFields && k in data ==> r[k] == data[k]
    ensures forall k :: k in record && !(k in TrafficFields && k in data) ==> r[k] == record[k]
  {
    map k | k in record.Keys + (set f | f in TrafficFields && f in data) ::
      if k in TrafficFields && k in data then data[k] else record[k]
  }

  /** Whether every `field in data` test of the update loop is defined and, where it holds, is
      followed by a valid `data[field]`. */
  predicate UpdatableBody(data: Value)
  {
    data.Obj? || forall i :: 0 <= i < |TrafficFields| ==> Contains(data, TrafficFields[i]) == Some(false)
  }

  /** Whether `"personal" in data` is defined and, where it holds, `data["personal"]` too. */
  predicate PersonalUpdatable(data: Value)
  {
    Contains(data, "personal").Some? && (Contains(data, "personal") == Some(true) ==> data.Obj?)
  }

  /** The update loop after its first `n` fields. */
  function OverlayUpTo(record: Dict, data: Dict, n: nat): Dict
    requires n <= |TrafficFields|
  {
    if n == 0 then record
    else
      var before := OverlayUpTo(record, data, n - 1);
      var field := TrafficFields[n - 1];
      if field in data then before[field := data[field]] else before
  }

  /** The whole loop is the overlay. */
  lemma OverlayUpToAll(record: Dict, data: Dict)
    ensures OverlayUpTo(record, data, |TrafficFields|) == Overlay(record, data)
  {
    OverlayUpToMeaning(record, data, |TrafficFields|);
    assert TrafficFields[..|TrafficFields|] == TrafficFields;
    var a, b := OverlayUpTo(record, data, |TrafficFields|), Overlay(record, data);
    assert a.Keys == b.Keys;
    assert forall k :: k in a ==> a[k] == b[k];
  }

  lemma {:induction false} OverlayUpToMeaning(record: Dict, data: Dict, n: nat)
    requires n <= |TrafficFields|
    ensures var r := OverlayUpTo(record, data, n);
      && (forall k :: k in r <==> k in record || (k in TrafficFields[..n] && k in data))
      && (forall k :: k in r ==> r[k] == if k in TrafficFields[..n] && k in data then data[k] else record[k])
  {
    if n > 0 {
      OverlayUpToMeaning(record, data, n - 1);
      assert TrafficFields[..n] == TrafficFields[..n - 1] + [TrafficFields[n - 1]];
    }
  }

  /** The records with a matching location and status, a missing or empty filter matching all. */
  function Matching(records: map<Value, Dict>, location: Option<string>, status: Option<string>): (r: map<Value, Dict>)
    ensures forall k :: k in r <==> k in records && Matches(records[k], location, status)
    ensures forall k :: k in r ==> r[k] == records[k]
  {
    map k | k in records && Matches(records[k], location, status) :: records[k]
  }

  /** `t.get("location") == location` and `t.get("status") == status`, for the filters given. */
  predicate Matches(record: Dict, location: Option<string>, status: Option<string>)
  {
    && (location.Some? && location.value != "" ==> Get(record, "location", Null) == Str(location.value))
    && (status.Some? && status.value != "" ==> Get(record, "status", Null) == Str(status.value))
  }

  /** Filtering twice by the same filters changes nothing, and without filters every record
      matches. */
  lemma MatchingProperties(records: map<Value, Dict>, location: Option<string>, status: Option<string>)
    ensures Matching(Matching(records, location, status), location, status) == Matching(records, location, status)
    ensures Matching(records, None, None) == records
  {
  }

  class App {
    /** `users_data` */
    var users: map<Value, Dict>
    /** `traffic_data` */
    var traffic: map<Value, Dict>

    constructor()
      ensures users == map[] && traffic == map[]
    {
      users := map[];
      traffic := map[];
    }

    /** `POST /users`: 201 stores the body under its `_id`; every other outcome changes nothing. */
    method CreateUser(data: Value) returns (code: int)
      modifies this
      ensures code == CreateUserCode(old(users), data)
      ensures code == 201 ==> users == old(users)[BodyId(data) := data.fields]
      ensures code != 201 ==> users == old(users)
      ensures traffic == old(traffic)
    {
      if !Truthy(data) || !data.Obj? {
        return 400;
      }
      var userId := Get(data.fields, "_id", Null);
      if !Truthy(userId) || !Hashable(userId) {
        return 400;
      }
      if userId in users {
        return 409;
      }
      var personal := Get(data.fields, "personal", Obj(map[]));
      if !personal.Obj? {
        return 400;
      }
      if !Truthy(Get(personal.fields, "name", Null)) || !Truthy(Get(personal.fields, "email", Null)) {
        return 400;
      }
      users := users[userId := data.fields];
      return 201;
    }

    /** `GET /users`: the stored records (their order is not modelled). */
    method GetUsers() returns (code: int, records: set<Dict>)
      ensures code == 200 && records == users.Values
    {
      return 200, users.Values;
    }

    /** `GET /users/<user_id>` */
    method GetUser(userId: string) returns (code: int, record: Option<Dict>)
      ensures Str(userId) in users <==> code == 200
      ensures code == 200 ==> record == Some(users[Str(userId)])
      ensures code != 200 ==> code == 404 && record == None
    {
      if Str(userId) in users {
        return 200, Some(users[Str(userId)]);
      }
      return 404, None;
    }

    /** `PUT /users/<user_id>`: only `personal` is replaced, and only when the body has it. */
    method UpdateUser(userId: string, data: Value) returns (code: int)
      modifies this
      ensures Str(userId) !in old(users) ==> code == 404
      ensures Str(userId) in old(users) && !Truthy(data) ==> code == 400
      ensures code == 200 <==> Str(userId) in old(users) && Truthy(data) && PersonalUpdatable(data)
      ensures code == 200 && Contains(data, "personal") == Some(true) ==>
        users == old(users)[Str(userId) := old(users)[Str(userId)]["personal" := data.fields["personal"]]]
      ensures !(code == 200 && Contains(data, "personal") == Some(true)) ==> users == old(users)
      ensures code == 200 || code == 400 || code == 404
      ensures traffic == old(traffic)
    {
      var key := Str(userId);
      if key !in users {
        return 404;
      }
      if !Truthy(data) {
        return 400;
      }
      var hasPersonal := Contains(data, "personal");
      if hasPersonal.None? {
        return 400;
      }
      if hasPersonal.value {
        if !data.Obj? {
          return 400;
        }
        users := users[key := users[key]["personal" := data.fields["personal"]]];
      }
      return 200;
    }

    /** `DELETE /users/<user_id>`: removes exactly that user, or answers 404 and changes nothing. */
    method DeleteUser(userId: string) returns (code: int)
      modifies this
      ensures Str(userId) in old(users) ==> code == 200 && users == old(users) - {Str(userId)}
      ensures Str(userId) !in old(users) ==> code == 404 && users == old(users)
      ensures traffic == old(traffic)
    {
      if Str(userId) in users {
        users := users - {Str(userId)};
        return 200;
      }
      return 404;
    }

    /** `POST /traffic`: 201 stores the body, stamped with the time when it has no timestamp. */
    method CreateTrafficData(data: Value, now: string) returns (code: int)
      modifies this
      ensures code == CreateTrafficCode(old(traffic), data)
      ensures code == 201 ==> traffic == old(traffic)[BodyId(data) := WithTimestamp(data.fields, now)]
      ensures code != 201 ==> traffic == old(traffic)
      ensures users == old(users)
    {
      if !Truthy(data) || !data.Obj? {
        return 400;
      }
      var trafficId := Get(data.fields, "_id", Null);
      if !Truthy(trafficId) || !Hashable(trafficId) {
        return 400;
      }
      if trafficId in traffic {
        return 409;
      }
      traffic := traffic[trafficId := WithTimestamp(data.fields, now)];
      return 201;
    }

    /** `GET /traffic?location=&status=`: exactly the records matching the filters given. */
    method GetTrafficData(location: Option<string>, status: Option<string>) returns (code: int, records: map<Value, Dict>)
      ensures code == 200 && records == Matching(traffic, location, status)
    {
      var result := traffic;
      if location.Some? && location.value != "" {
        result := map k | k in result && Get(result[k], "location", Null) == Str(location.value) :: result[k];
      }
      if status.Some? && status.value != "" {
        result := map k | k in result && Get(result[k], "status", Null) == Str(status.value) :: result[k];
      }
      assert forall k :: k in result ==> k in traffic && result[k] == traffic[k];
      assert forall k :: k in result <==> k in traffic && Matches(traffic[k], location, status);
      return 200, result;
    }

    /** `GET /traffic/<traffic_id>` */
    method GetTrafficById(trafficId: string) returns (code: int, record: Option<Dict>)
      ensures Str(trafficId) in traffic <==> code == 200
      ensures code == 200 ==> record == Some(traffic[Str(trafficId)])
      ensures code != 200 ==> code == 404 && record == None
    {
      if Str(trafficId) in traffic {
        return 200, Some(traffic[Str(trafficId)]);
      }
      return 404, None;
    }

    /** `PUT /traffic/<traffic_id>`: copies `location`, `vehicle_count` and `status` from the body
        where it has them and leaves every other field alone. */
    method UpdateTrafficData(trafficId: string, data: Value) returns (code: int)
      modifies this
      ensures Str(trafficId) !in old(traffic) ==> code == 404 && traffic == old(traffic)
      ensures Str(trafficId) in old(traffic) && !Truthy(data) ==> code == 400
      ensures Str(trafficId) in old(traffic) && Truthy(data) ==> (code == 200 <==> UpdatableBody(data))
      ensures code == 200 && data.Obj? ==>
        traffic == old(traffic)[Str(trafficId) := Overlay(old(traffic)[Str(trafficId)], data.fields)]
      ensures !(code == 200 && data.Obj?) ==> traffic == old(traffic)
      ensures code == 200 || code == 400 || code == 404
      ensures users == old(users)
    {
      var key := Str(trafficId);
      if key !in traffic {
        return 404;
      }
      if !Truthy(data) {
        return 400;
      }
      ghost var record := traffic[key];
      for i := 0 to |TrafficFields|
        invariant key in traffic
        invariant data.Obj? ==> traffic == old(traffic)[key := OverlayUpTo(record, data.fields, i)]
        invariant !data.Obj? ==> traffic == old(traffic)
        invariant !data.Obj? ==> forall j :: 0 <= j < i ==> Contains(data, TrafficFields[j]) == Some(false)
        invariant users == old(users)
      {
        var field := TrafficFields[i];
        var present := Contains(data, field);
        if present.None? {
          return 400;
        }
        if present.value {
          if !data.Obj? {
            return 400;
          }
          traffic := traffic[key := traffic[key][field := data.fields[field]]];
        }
      }
      if data.Obj? {
        OverlayUpToAll(record, data.fields);
      }
      return 200;
    }

    /** `DELETE /traffic/<traffic_id>`: removes exactly that record, or answers 404 and changes
        nothing. */
    method DeleteTrafficData(trafficId: string) returns (code: int)
      modifies this
      ensures Str(trafficId) in old(traffic) ==> code == 200 && traffic == old(traffic) - {Str(trafficId)}
      ensures Str(trafficId) !in old(traffic) ==> code == 404 && traffic == old(traffic)
      ensures users == old(users)
    {
      if Str(trafficId) in traffic {
        traffic := traffic - {Str(trafficId)};
        return 200;
      }
      return 404;
    }
  }
}
