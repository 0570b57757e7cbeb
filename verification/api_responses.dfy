/**
 * The `ApiResponses` trait: every JSON body the API returns is an envelope with `data` and
 * `meta` (and an optional `message`), or, for errors, `message` and `meta`. The record
 * timestamps of the data are lifted into `meta.timestamps`.
 */
module ApiResponses {
  import opened Wrappers
  import opened JsonValue

  /**
   * What the clock gives a response: `now()->toIso8601String()` and the elapsed time
   * `getResponseTime()` reports, as the JSON value it is encoded to.
   */
  datatype Clock = Clock(timestamp: string, responseTime: Json)

  /** `response()->json($body, $status)`. */
  datatype JsonResponse = JsonResponse(status: int, body: map<string, Json>)

  /** The two keys `timestamps` always has. */
  function BaseTimestamps(clock: Clock): (t: map<string, Json>)
    ensures t.Keys == {"timestamp", "response_time_ms"}
  {
    map["timestamp" := JStr(clock.timestamp), "response_time_ms" := clock.responseTime]
  }

  /** `data_get($data, $key) !== null` for a key without dots: only an associative array can hold it. */
  predicate HasTimestamp(data: Json, key: string)
  {
    data.JObject? && key in data.fields && data.fields[key] != JNull
  }

  /**
   * `prepareResponseData`: an array's non-null `created_at` and `updated_at` are removed
   * from it and put, formatted by `format` (Carbon's ISO 8601 rendering), into the
   * timestamps; any other data is passed through.
   */
  method PrepareResponseData(data: Json, clock: Clock, format: Json -> string)
    returns (out: Json, timestamps: map<string, Json>)
    ensures timestamps.Keys == {"timestamp", "response_time_ms"}
                               + (if HasTimestamp(data, "created_at") then {"created_at"} else {})
                               + (if HasTimestamp(data, "updated_at") then {"updated_at"} else {})
    ensures timestamps["timestamp"] == JStr(clock.timestamp) && timestamps["response_time_ms"] == clock.responseTime
    ensures HasTimestamp(data, "created_at") ==> timestamps["created_at"] == JStr(format(data.fields["created_at"]))
    ensures HasTimestamp(data, "updated_at") ==> timestamps["updated_at"] == JStr(format(data.fields["updated_at"]))
    ensures !data.JObject? ==> out == data
    ensures data.JObject? ==>
              && out.JObject?
              && !HasTimestamp(out, "created_at") && !HasTimestamp(out, "updated_at")
              && forall k :: k in data.fields ==>
                   (k in out.fields <==> !(k in {"created_at", "updated_at"} && HasTimestamp(data, k)))
                   && (k in out.fields ==> out.fields[k] == data.fields[k])
    ensures data.JObject? ==> out.fields.Keys <= data.fields.Keys
  {
    timestamps := BaseTimestamps(clock);
    out := data;
    if data.JObject? {
      var fields := data.fields;
      if HasTimestamp(data, "created_at") {
        timestamps := timestamps["created_at" := JStr(format(data.fields["created_at"]))];
        fields := fields - {"created_at"};
      }
      if HasTimestamp(data, "updated_at") {
        timestamps := timestamps["updated_at" := JStr(format(data.fields["updated_at"]))];
        fields := fields - {"updated_at"};
      }
      out := JObject(fields);
    }
  }

  /**
   * `buildMeta`: `array_merge` of the status, the extra entries and the timestamps. With
   * string keys a later array wins, so the timestamps are always the computed ones and an
   * extra `status` entry replaces the status code.
   */
  function BuildMeta(status: int, additional: map<string, Json>, timestamps: map<string, Json>): (meta: map<string, Json>)
    ensures meta.Keys == {"status", "timestamps"} + additional.Keys
    ensures meta["timestamps"] == JObject(timestamps)
    ensures meta["status"] == if "status" in additional then additional["status"] else JInt(status)
    ensures forall k :: k in additional && k != "timestamps" ==> meta[k] == additional[k]
  {
    map["status" := JInt(status)] + additional + map["timestamps" := JObject(timestamps)]
  }

  /**
   * `success`: null data (absent or passed explicitly, `JNull` here) and null extra meta
   * count as empty arrays; `message` appears only when given.
   */
  method Success(data: Json, message: Option<string>, additionalMeta: Option<map<string, Json>>, status: int,
                 clock: Clock, format: Json -> string)
    returns (r: JsonResponse)
    ensures r.status == status
    ensures r.body.Keys == {"data", "meta"} + (if message.Some? then {"message"} else {})
    ensures message.Some? ==> r.body["message"] == JStr(message.value)
    ensures r.body["meta"].JObject?
    ensures var meta, extra := r.body["meta"].fields, additionalMeta.GetOr(map[]);
            && meta.Keys == {"status", "timestamps"} + extra.Keys
            && meta["status"] == (if "status" in extra then extra["status"] else JInt(status))
            && (forall k :: k in extra && k != "timestamps" ==> meta[k] == extra[k])
            && Stamped(meta["timestamps"], data, clock, format)
    ensures data == JNull ==> r.body["data"] == JList([])
    ensures data != JNull && !data.JObject? ==> r.body["data"] == data
    ensures data.JObject? ==> Unstamped(data, r.body["data"])
  {
    var payload := if data == JNull then JList([]) else data;
    var extra := additionalMeta.GetOr(map[]);
    var out, timestamps := PrepareResponseData(payload, clock, format);
    var meta := BuildMeta(status, extra, timestamps);
    var body := map["data" := out, "meta" := JObject(meta)];
    if message.Some? {
      body := body["message" := JStr(message.value)];
    }
    return JsonResponse(status, body);
  }

  /**
   * `timestamps` holds the clock's two entries and each non-null record timestamp of
   * `data`, formatted, and nothing else.
   */
  ghost predicate Stamped(timestamps: Json, data: Json, clock: Clock, format: Json -> string)
  {
    && timestamps.JObject?
    && timestamps.fields.Keys == {"timestamp", "response_time_ms"}
                                 + (if HasTimestamp(data, "created_at") then {"created_at"} else {})
                                 + (if HasTimestamp(data, "updated_at") then {"updated_at"} else {})
    && timestamps.fields["timestamp"] == JStr(clock.timestamp)
    && timestamps.fields["response_time_ms"] == clock.responseTime
    && (HasTimestamp(data, "created_at") ==>
          timestamps.fields["created_at"] == JStr(format(data.fields["created_at"])))
    && (HasTimestamp(data, "updated_at") ==>
          timestamps.fields["updated_at"] == JStr(format(data.fields["updated_at"])))
  }

  /** `out` is the array `data` without its non-null timestamps and with everything else kept. */
  ghost predicate Unstamped(data: Json, out: Json)
    requires data.JObject?
  {
    && out.JObject?
    && out.fields.Keys <= data.fields.Keys
    && !HasTimestamp(out, "created_at") && !HasTimestamp(out, "updated_at")
    && forall k :: k in data.fields ==>
         && (k in out.fields <==> !(k in {"created_at", "updated_at"} && data.fields[k] != JNull))
         && (k in out.fields ==> out.fields[k] == data.fields[k])
  }

  /** `ok`: `success` with status 200 and no extra meta; null data is again an empty array. */
  method Ok(data: Json, message: Option<string>, clock: Clock, format: Json -> string) returns (r: JsonResponse)
    ensures r.status == 200
    ensures r.body.Keys == {"data", "meta"} + (if message.Some? then {"message"} else {})
    ensures message.Some? ==> r.body["message"] == JStr(message.value)
    ensures r.body["meta"].JObject? && r.body["meta"].fields.Keys == {"status", "timestamps"}
    ensures r.body["meta"].fields["status"] == JInt(200)
    ensures Stamped(r.body["meta"].fields["timestamps"], data, clock, format)
    ensures data == JNull ==> r.body["data"] == JList([])
    ensures data != JNull && !data.JObject? ==> r.body["data"] == data
    ensures data.JObject? ==> Unstamped(data, r.body["data"])
  {
    r := Success(if data == JNull then JList([]) else data, message, None, 200, clock, format);
  }

  /** `error`: only `message` and `meta`, and the meta holds only the status and the two base timestamps. */
  function Error(message: string, status: int, clock: Clock): (r: JsonResponse)
    ensures r.status == status && r.body.Keys == {"message", "meta"}
    ensures r.body["message"] == JStr(message)
    ensures r.body["meta"].JObject? && r.body["meta"].fields.Keys == {"status", "timestamps"}
    ensures r.body["meta"].fields["status"] == JInt(status)
    ensures r.body["meta"].fields["timestamps"] == JObject(BaseTimestamps(clock))
  {
    JsonResponse(status, map["message" := JStr(message),
                             "meta" := JObject(BuildMeta(status, map[], BaseTimestamps(clock)))])
  }

  /** Nothing is lost: each moved timestamp can be put back, giving the original array up to formatting. */
  lemma MovedTimestampsRestore(fields: map<string, Json>, out: map<string, Json>)
    requires forall k :: k in fields ==>
               (k in out <==> !(k in {"created_at", "updated_at"} && fields[k] != JNull))
               && (k in out ==> out[k] == fields[k])
    requires out.Keys <= fields.Keys
    ensures out + (map k | k in fields && k in {"created_at", "updated_at"} && fields[k] != JNull :: fields[k]) == fields
  {
  }
}
