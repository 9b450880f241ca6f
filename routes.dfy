/**
 * The value checks of the backend's REST routes: `safe_int`, the normalisation of a traffic
 * status against the valid statuses, the removal of None fields and the upload extension check,
 * and `create_traffic`, which builds a traffic document from a JSON body or a form and is the one
 * route that rewrites a field in place. Flask, MongoDB, base64 and the clock are parameters.
 */
module Routes {
  import opened Wrappers
  import opened Json
  import PyInt

  // ---------------------------------------------------------------- integers

  predicate IsDigit(c: char) { '0' <= c <= '9' }

  /** Python's `str.isspace()`, which `str.strip()` and `int()` both use: tab to carriage return,
      the four separators 0x1C-0x1F, space, and the Unicode white space characters. */
  predicate IsSpace(c: char)
  {
    var n := c as int;
    || 0x09 <= n <= 0x0D || 0x1C <= n <= 0x20 || n == 0x85 || n == 0xA0 || n == 0x1680
    || 0x2000 <= n <= 0x200A || n == 0x2028 || n == 0x2029 || n == 0x202F || n == 0x205F || n == 0x3000
  }

  predicate AllDigits(s: string) { forall i :: 0 <= i < |s| ==> IsDigit(s[i]) }

  /** The value of a string of decimal digits. */
  function DigitsValue(s: string): nat
    requires AllDigits(s)
  {
    if s == [] then 0 else DigitsValue(s[..|s| - 1]) * 10 + (s[|s| - 1] as int - '0' as int)
  }

  /** `s.strip()`: white space as `IsSpace` defines it removed from both ends. */
  function Strip(s: string): (r: string)
    ensures |r| <= |s|
    ensures r != [] ==> !IsSpace(r[0]) && !IsSpace(r[|r| - 1])
    ensures s != [] && !IsSpace(s[0]) && !IsSpace(s[|s| - 1]) ==> r == s
  {
    if s != [] && IsSpace(s[0]) then Strip(s[1..])
    else if s != [] && IsSpace(s[|s| - 1]) then Strip(s[..|s| - 1])
    else s
  }

  /** Stripping only removes characters. */
  lemma {:induction false} StripChars(s: string)
    ensures forall i :: 0 <= i < |Strip(s)| ==> Strip(s)[i] in s
  {
    if s != [] && IsSpace(s[0]) {
      StripChars(s[1..]);
    } else if s != [] && IsSpace(s[|s| - 1]) {
      StripChars(s[..|s| - 1]);
    }
  }

  /** `int(s)` for a string: optional white space, an optional sign and at least one digit. */
  function ParseInt(s: string): Option<int>
  {
    var t := Strip(s);
    if t == [] then None
    else
      var negative := t[0] == '-';
      var digits := if t[0] == '-' || t[0] == '+' then t[1..] else t;
      if digits == [] || !AllDigits(digits) then None
      else
        var magnitude: int := DigitsValue(digits);
        Some(if negative then -magnitude else magnitude)
  }

  /** `int(v)` of a JSON value, or None where Python raises ValueError or TypeError. */
  function IntOf(v: Value): Option<int>
  {
    match v
    case Int(i) => Some(i)
    case Bool(b) => Some(if b then 1 else 0)
    case Real(r) => Some(PyInt.Trunc(r))
    case Str(s) => ParseInt(s)
    case _ => None
  }

  /** `safe_int(value)`: None for None, "" and anything `int()` rejects, else `int(value)`. */
  function SafeInt(v: Value): (r: Option<int>)
    ensures v == Null || v == Str("") ==> r == None
    ensures v != Null && v != Str("") ==> r == IntOf(v)
  {
    if v == Null || v == Str("") then None else IntOf(v)
  }

  /** The decimal digits of `n`, as `str(n)` writes them. */
  function NatDigits(n: nat): (s: string)
    ensures s != [] && AllDigits(s) && s[0] != '-' && s[0] != '+'
  {
    if n < 10 then [('0' as int + n) as char]
    else NatDigits(n / 10) + [('0' as int + n % 10) as char]
  }

  /** `str(i)`. */
  function IntString(i: int): string
  {
    if i < 0 then "-" + NatDigits(-i) else NatDigits(i)
  }

  lemma {:induction false} NatDigitsValue(n: nat)
    ensures DigitsValue(NatDigits(n)) == n
  {
    if n >= 10 {
      NatDigitsValue(n / 10);
      var s := NatDigits(n);
      assert s[..|s| - 1] == NatDigits(n / 10);
    }
  }

  /** `safe_int` reads back every integer Python prints. */
  lemma SafeIntOfPrinted(i: int)
    ensures SafeInt(Str(IntString(i))) == Some(i)
  {
    var s := IntString(i);
    var n: nat := if i < 0 then -i else i;
    var ds := NatDigits(n);
    NatDigitsValue(n);
    assert IsDigit(ds[|ds| - 1]) && IsDigit(ds[0]);
    assert s[|s| - 1] == ds[|ds| - 1];
    assert Strip(s) == s;
    if i < 0 {
      assert s[1..] == ds;
    } else {
      assert s == ds;
    }
  }

  /** Text with no digit is never an integer. */
  lemma SafeIntNoDigits(s: string)
    requires forall i :: 0 <= i < |s| ==> !IsDigit(s[i])
    ensures SafeInt(Str(s)) == None
  {
    var t := Strip(s);
    StripChars(s);
    if t != [] {
      var digits := if t[0] == '-' || t[0] == '+' then t[1..] else t;
      if digits != [] {
        assert digits[0] in t;
        assert !IsDigit(digits[0]);
      }
    }
  }

  // ---------------------------------------------------------------- statuses

  /** `VALID_STATUSES` of the configuration. */
  const ValidStatuses: seq<string> := ["light", "moderate", "heavy", "unknown"]

  predicate IsValidStatus(v: Value)
  {
    v.Str? && v.s in ValidStatuses
  }

  /** `if status not in VALID_STATUSES: status = "unknown"`. */
  function NormalizeStatus(status: Value): (r: Value)
    ensures IsValidStatus(r)
    ensures IsValidStatus(status) ==> r == status
    ensures !IsValidStatus(status) ==> r == Str("unknown")
  {
    if IsValidStatus(status) then status else Str("unknown")
  }

  /** Normalising twice is normalising once. */
  lemma NormalizeIdempotent(status: Value)
    ensures NormalizeStatus(NormalizeStatus(status)) == NormalizeStatus(status)
  {
  }

  // ---------------------------------------------------------------- documents

  /** `{k: v for k, v in doc.items() if v is not None}`. */
  function DropNone(doc: Dict): (r: Dict)
    ensures forall k :: k in r <==> k in doc && doc[k] != Null
    ensures forall k :: k in r ==> r[k] == doc[k]
  {
    map k | k in doc && doc[k] != Null :: doc[k]
  }

  // ---------------------------------------------------------------- uploads

  /** `ALLOWED_EXTENSIONS` of the configuration. */
  const AllowedExtensions: set<string> := {"png", "jpg", "jpeg", "gif", "bmp", "webp"}

  /** ASCII `str.lower()`. */
  function Lower(s: string): (r: string)
    ensures |r| == |s|
    ensures forall i :: 0 <= i < |s| ==> r[i] == (if 'A' <= s[i] <= 'Z' then (s[i] as int + 32) as char else s[i])
  {
    seq(|s|, i requires 0 <= i < |s| => if 'A' <= s[i] <= 'Z' then (s[i] as int + 32) as char else s[i])
  }

  /** The position of the last '.' of a name. */
  function LastDot(name: string): (i: nat)
    requires '.' in name
    ensures i < |name| && name[i] == '.'
    ensures forall j :: i < j < |name| ==> name[j] != '.'
  {
    if name[|name| - 1] == '.' then |name| - 1 else LastDot(name[..|name| - 1])
  }

  /** `filename.rsplit(".", 1)[1].lower() if "." in filename else ""`. */
  function FileExtension(name: string): (ext: string)
    ensures '.' !in name ==> ext == ""
    ensures '.' !in ext
  {
    if '.' in name then
      var i := LastDot(name);
      var ext := Lower(name[i + 1..]);
      assert forall j :: 0 <= j < |ext| ==> ext[j] != '.' by {
        forall j | 0 <= j < |ext| ensures ext[j] != '.' {
          assert name[i + 1..][j] == name[i + 1 + j];
        }
      }
      ext
    else ""
  }

  /** The extension is the lower-cased text after the last dot, whatever comes before it. */
  lemma FileExtensionOfSuffix(stem: string, ext: string)
    requires '.' !in ext
    ensures FileExtension(stem + "." + ext) == Lower(ext)
  {
    var name := stem + "." + ext;
    assert name[|stem|] == '.';
    assert forall j :: |stem| < j < |name| ==> name[j] == ext[j - |stem| - 1];
    var i := LastDot(name);
    assert i == |stem|;
    assert name[i + 1..] == ext;
  }

  /** A filename without a dot names no allowed type, so its upload is refused. */
  lemma NoDotRejected(name: string)
    requires '.' !in name
    ensures FileExtension(name) !in AllowedExtensions
  {
  }

  /** The check is case-insensitive: "photo.PNG" is accepted. */
  lemma UpperCaseAccepted()
    ensures FileExtension("photo.PNG") in AllowedExtensions
  {
    FileExtensionOfSuffix("photo", "PNG");
    assert Lower("PNG") == "png";
  }

  // ---------------------------------------------------------------- create_traffic

  /** An image file of a form: its name and its contents already base64-encoded. */
  datatype Upload = Upload(filename: string, encoded: string)

  datatype Request =
    | JsonBody(data: Value)
    | Form(fields: map<string, string>, image: Option<Upload>)

  /** `request.form.get(k)` as a JSON value. */
  function FormValue(fields: map<string, string>, k: string): Value
  {
    if k in fields then Str(fields[k]) else Null
  }

  /** `safe_int(...)` as a stored value. */
  function StoredInt(v: Value): Value
  {
    if SafeInt(v).Some? then Int(SafeInt(v).value) else Null
  }

  /** The counters every traffic document carries. */
  const CountFields: seq<string> := ["car_count", "motorbike_count", "lane1_in", "lane1_out", "lane2_in", "lane2_out"]

  /** What every built document has: an id, a status and an integer vehicle count. */
  predicate Built(doc: Dict)
  {
    && "_id" in doc && doc["_id"] != Null && "status" in doc
    && "vehicle_count" in doc && doc["vehicle_count"].Int?
  }

  /** The traffic document literal of `create_traffic`, the six counters read with `safe_int`
      from `source`. */
  function Assemble(source: Dict, timestamp: Value, location: Value, image: Value, id: Value, status: Value,
                    vehicleCount: int): (doc: Dict)
    ensures "_id" in doc && doc["_id"] == id && "status" in doc && doc["status"] == status
    ensures "vehicle_count" in doc && doc["vehicle_count"] == Int(vehicleCount)
    ensures id != Null ==> Built(doc)
  {
    var counts := map k | k in CountFields :: StoredInt(Get(source, k, Null));
    counts["timestamp" := timestamp]["location" := location]["image" := image]
          ["_id" := id]["status" := status]["vehicle_count" := Int(vehicleCount)]
  }

  /** The document of a JSON body, or the status code of its failure: a falsy body is a 400, a
      truthy image that is not base64 a 400, and a `vehicle_count` that `int()` rejects (or a body
      that is no object) a 500. */
  function JsonDoc(data: Value, generatedId: string, now: string, isBase64: string -> bool): (r: Result<Dict, int>)
    ensures r.Ok? ==> Built(r.value)
    ensures r.Err? ==> r.error == 400 || r.error == 500
    ensures !Truthy(data) ==> r == Err(400)
    ensures Truthy(data) && !data.Obj? ==> r == Err(500)
    ensures Truthy(data) && data.Obj? ==>
      var image := Get(data.fields, "image", Null);
      var count := IntOf(Get(data.fields, "vehicle_count", Int(0)));
      && (Truthy(image) && !(image.Str? && isBase64(image.s)) ==> r == Err(400))
      && (!(Truthy(image) && !(image.Str? && isBase64(image.s))) && count.None? ==> r == Err(500))
      && (r.Ok? <==> !(Truthy(image) && !(image.Str? && isBase64(image.s))) && count.Some?)
    ensures r.Ok? ==>
      var d := data.fields;
      && r.value["vehicle_count"] == Int(IntOf(Get(d, "vehicle_count", Int(0))).value)
      && r.value["_id"] == (if Truthy(Get(d, "_id", Null)) then Get(d, "_id", Null) else Str(generatedId))
      && r.value["status"] == Get(d, "status", Str("unknown"))
  {
    if !Truthy(data) then Err(400)
    else if !data.Obj? then Err(500)
    else
      var d := data.fields;
      var id := if Truthy(Get(d, "_id", Null)) then Get(d, "_id", Null) else Str(generatedId);
      var image := Get(d, "image", Null);
      var count := IntOf(Get(d, "vehicle_count", Int(0)));
      if Truthy(image) && !(image.Str? && isBase64(image.s)) then Err(400)
      else if count.None? then Err(500)
      else Ok(Assemble(d, Get(d, "timestamp", Str(now + "Z")), Get(d, "location", Str("Unknown Location")), image, id,
                       Get(d, "status", Str("unknown")), count.value))
  }

  /** The document of a form: an upload whose extension is not allowed is a 400, and a missing or
      unreadable `vehicle_count` is stored as 0. */
  function FormDoc(fields: map<string, string>, upload: Option<Upload>, generatedId: string, now: string): (r: Result<Dict, int>)
    ensures r.Ok? ==> Built(r.value)
    ensures r.Ok? ==> r.value["vehicle_count"] == Int(SafeInt(FormValue(fields, "vehicle_count")).GetOr(0))
    ensures r.Err? <==> upload.Some? && upload.value.filename != "" && FileExtension(upload.value.filename) !in AllowedExtensions
    ensures r.Err? ==> r.error == 400
  {
    var id := if "_id" in fields && fields["_id"] != "" then Str(fields["_id"]) else Str(generatedId);
    var hasFile := upload.Some? && upload.value.filename != "";
    if hasFile && FileExtension(upload.value.filename) !in AllowedExtensions then Err(400)
    else
      var count := SafeInt(FormValue(fields, "vehicle_count"));
      var source := map k | k in fields :: Str(fields[k]);
      Ok(Assemble(source, if "timestamp" in fields then Str(fields["timestamp"]) else Str(now + "Z"),
                  if "location" in fields then Str(fields["location"]) else Str("Unknown Location"),
                  if hasFile then Str(upload.value.encoded) else Null, id,
                  if "status" in fields then Str(fields["status"]) else Str("unknown"),
                  if count.Some? then count.value else 0))
  }

  /** The document a request builds, or the status code of its failure. */
  function Build(request: Request, generatedId: string, now: string, isBase64: string -> bool): (r: Result<Dict, int>)
    ensures r.Ok? ==> Built(r.value)
    ensures r.Err? ==> r.error == 400 || r.error == 500
    ensures request.JsonBody? ==> r == JsonDoc(request.data, generatedId, now, isBase64)
    ensures request.Form? ==> r == FormDoc(request.fields, request.image, generatedId, now)
  {
    match request
    case JsonBody(data) => JsonDoc(data, generatedId, now, isBase64)
    case Form(fields, image) => FormDoc(fields, image, generatedId, now)
  }

  /** The document stored for a built one: an unknown status replaced by "unknown", then every
      null field dropped; the id and the vehicle count are kept. */
  function Stored(doc: Dict): (r: Dict)
    requires Built(doc)
    ensures "status" in r && r["status"] == NormalizeStatus(doc["status"])
    ensures forall k :: k in r ==> r[k] != Null
    ensures "_id" in r && r["_id"] == doc["_id"]
    ensures "vehicle_count" in r && r["vehicle_count"] == doc["vehicle_count"]
    ensures forall k :: k in doc && k != "status" && doc[k] != Null ==> k in r && r[k] == doc[k]
  {
    DropNone(doc["status" := NormalizeStatus(doc["status"])])
  }

  /** `create_traffic()`: the status code and, on 201, the document saved. `existingIds` are the
      ids already in the collection (a duplicate is a 409). */
  method CreateTraffic(dbConnected: bool, request: Request, generatedId: string, now: string,
                       isBase64: string -> bool, existingIds: set<Value>)
    returns (code: int, saved: Option<Dict>)
    ensures !dbConnected ==> code == 500 && saved == None
    ensures saved.Some? <==> code == 201
    ensures dbConnected && Build(request, generatedId, now, isBase64).Err? ==>
      code == Build(request, generatedId, now, isBase64).error && saved == None
    ensures dbConnected && Build(request, generatedId, now, isBase64).Ok? ==>
      var built := Build(request, generatedId, now, isBase64).value;
      && code == (if built["_id"] in existingIds then 409 else 201)
      && (code == 201 ==> saved == Some(Stored(built)))
  {
    if !dbConnected {
      return 500, None;
    }
    var built := Build(request, generatedId, now, isBase64);
    if built.Err? {
      return built.error, None;
    }
    var trafficDoc := built.value;
    if !IsValidStatus(trafficDoc["status"]) {
      trafficDoc := trafficDoc["status" := Str("unknown")];
    }
    assert trafficDoc == built.value["status" := NormalizeStatus(built.value["status"])];
    trafficDoc := DropNone(trafficDoc);
    if trafficDoc["_id"] in existingIds {
      return 409, None;
    }
    return 201, Some(trafficDoc);
  }

  /** A saved document has a valid status, no null field, a fresh id and an integer vehicle
      count; a form whose vehicle count is missing or unreadable stores 0. */
  lemma CreatedDocument(request: Request, generatedId: string, now: string, isBase64: string -> bool,
                        existingIds: set<Value>)
    requires Build(request, generatedId, now, isBase64).Ok?
    requires Build(request, generatedId, now, isBase64).value["_id"] !in existingIds
    ensures var doc := Stored(Build(request, generatedId, now, isBase64).value);
      && IsValidStatus(doc["status"]) && (forall k :: k in doc ==> doc[k] != Null)
      && doc["_id"] !in existingIds && doc["vehicle_count"].Int?
      && (request.Form? && SafeInt(FormValue(request.fields, "vehicle_count")).None? ==> doc["vehicle_count"] == Int(0))
  {
  }
}
