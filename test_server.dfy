/** The in-memory test server (test_server.py): POST /api/co2 keeps the
    received payloads in a list of at most 100 entries, GET /api/status
    reports its length and last entry, and the index page shows the last
    ten. The list is the `records` field of `Store`; local-time formatting
    of a timestamp is a parameter (`None` when `fromtimestamp` raises). */
module TestServer {
  import opened Common
  import opened Json

  const Capacity: nat := 100
  const Shown: nat := 10

  datatype Response = Response(status: int, message: string)

  const Received: Response := Response(200, "Data received")
  const NoJson: Response := Response(400, "No JSON data received")
  /** A 500 reply; the exception text is not modelled. */
  const Failed: Response := Response(500, "error")

  /** `data['timestamp']` as `fromtimestamp` accepts it: a number (a JSON
      boolean is a Python int). */
  function TimestampOf(data: Object): Option<real>
  {
    if "timestamp" !in data then None
    else match data["timestamp"]
      case Num(n) => Some(n)
      case Bool(b) => Some(if b then 1.0 else 0.0)
      case _ => None
  }

  /** The formatted time of a payload, or `None` when formatting raises. */
  function Stamp(data: Object, formatTime: real -> Option<string>): Option<string>
  {
    match TimestampOf(data)
    case None => None
    case Some(t) => formatTime(t)
  }

  /** `append` followed by `pop(0)` when the list outgrows the capacity. */
  function Push(buffer: seq<Object>, item: Object): seq<Object>
  {
    var grown := buffer + [item];
    if |grown| > Capacity then grown[1..] else grown
  }

  /** Only the oldest entry leaves, and only when the list was full; the
      new entry is last and the others keep their order. */
  lemma PushEvictsOldest(buffer: seq<Object>, item: Object)
    requires |buffer| <= Capacity
    ensures |Push(buffer, item)| <= Capacity
    ensures Push(buffer, item)[|Push(buffer, item)| - 1] == item
    ensures |buffer| < Capacity ==> Push(buffer, item) == buffer + [item]
    ensures |buffer| == Capacity ==> Push(buffer, item) == buffer[1..] + [item]
  {
    if |buffer| == Capacity {
      assert (buffer + [item])[1..] == buffer[1..] + [item];
    }
  }

  datatype PostOutcome = PostOutcome(response: Response, buffer: seq<Object>)

  /** `receive_co2_data()`: the response and the new list. */
  function Post(buffer: seq<Object>, body: Option<Object>, formatTime: real -> Option<string>): PostOutcome
  {
    if body.None? || body.value == map[] then PostOutcome(NoJson, buffer)
    else
      var data := body.value;
      match Stamp(data, formatTime)
      case None => PostOutcome(Failed, buffer)
      case Some(text) =>
        var item := data["formatted_time" := Str(text)];
        var stored := Push(buffer, item);
        if "co2_ppm" in item && "air_quality" in item && "device_id" in item then PostOutcome(Received, stored)
        else PostOutcome(Failed, stored)
  }

  /** No body, or no usable timestamp: an error reply and the list unchanged. */
  lemma PostRejectsUnchanged(buffer: seq<Object>, body: Option<Object>, formatTime: real -> Option<string>)
    requires body.None? || body == Some(map[]) || Stamp(body.value, formatTime).None?
    ensures Post(buffer, body, formatTime).buffer == buffer
    ensures Post(buffer, body, formatTime).response.status == (if body.None? || body == Some(map[]) then 400 else 500)
  {
  }

  /** A timestamped payload is stored, with its formatted time, even when a
      field the log line reads is missing; the reply is 200 only when
      co2_ppm, air_quality and device_id are all present. */
  lemma PostStores(buffer: seq<Object>, data: Object, formatTime: real -> Option<string>)
    requires |buffer| <= Capacity && data != map[] && Stamp(data, formatTime).Some?
    ensures var outcome := Post(buffer, Some(data), formatTime);
      var item := data["formatted_time" := Str(Stamp(data, formatTime).value)];
      |outcome.buffer| <= Capacity &&
      outcome.buffer[|outcome.buffer| - 1] == item &&
      outcome.buffer == (if |buffer| == Capacity then buffer[1..] else buffer) + [item] &&
      (outcome.response.status == 200 <==> "co2_ppm" in data && "air_quality" in data && "device_id" in data)
  {
    PushEvictsOldest(buffer, data["formatted_time" := Str(Stamp(data, formatTime).value)]);
  }

  /** Every POST keeps the list within its capacity. */
  lemma PostKeepsCapacity(buffer: seq<Object>, body: Option<Object>, formatTime: real -> Option<string>)
    requires |buffer| <= Capacity
    ensures |Post(buffer, body, formatTime).buffer| <= Capacity
  {
    if body.Some? && body.value != map[] && Stamp(body.value, formatTime).Some? {
      PushEvictsOldest(buffer, body.value["formatted_time" := Str(Stamp(body.value, formatTime).value)]);
    }
  }

  datatype StatusReport = StatusReport(totalMeasurements: nat, lastMeasurement: Option<Object>)

  /** `api_status()`. */
  function ApiStatus(buffer: seq<Object>): StatusReport
  {
    StatusReport(|buffer|, if buffer == [] then None else Some(buffer[|buffer| - 1]))
  }

  /** After a stored payload, the status reports it as the last measurement. */
  lemma StatusAfterPost(buffer: seq<Object>, data: Object, formatTime: real -> Option<string>)
    requires |buffer| <= Capacity && data != map[] && Stamp(data, formatTime).Some?
    ensures var after := Post(buffer, Some(data), formatTime).buffer;
      ApiStatus(after).lastMeasurement == Some(data["formatted_time" := Str(Stamp(data, formatTime).value)]) &&
      ApiStatus(after).totalMeasurements == if |buffer| == Capacity then Capacity else |buffer| + 1
  {
    PostStores(buffer, data, formatTime);
  }

  /** The entries on the index page: `co2_data[-10:]`. */
  function LastShown(buffer: seq<Object>): seq<Object>
  {
    if |buffer| > Shown then buffer[|buffer| - Shown..] else buffer
  }

  /** `str.lower()` on ASCII letters. */
  function Lower(s: string): (r: string)
    ensures |r| == |s|
  {
    if s == [] then []
    else [if 'A' <= s[0] <= 'Z' then (s[0] as int + 32) as char else s[0]] + Lower(s[1..])
  }

  /** One card of the index page. */
  datatype Card = Card(statusClass: string, co2: Value, airQuality: string, deviceId: Value, location: Value, time: Value)

  /** The card of one entry, or `None` when a field is missing or
      air_quality has no `lower()`. */
  function CardOf(entry: Object): Option<Card>
  {
    if "air_quality" !in entry || !entry["air_quality"].Str? then None
    else if "co2_ppm" !in entry || "device_id" !in entry || "location" !in entry || "formatted_time" !in entry then None
    else
      var quality := entry["air_quality"].s;
      Some(Card("status-" + Lower(quality), entry["co2_ppm"], quality,
                entry["device_id"], entry["location"], entry["formatted_time"]))
  }

  datatype IndexView = IndexView(cards: seq<Card>, total: nat)

  /** `index()`: the cards of the last ten entries, oldest first, and the
      total; `None` when rendering one of them raises. */
  function Index(buffer: seq<Object>): Option<IndexView>
  {
    var shown := LastShown(buffer);
    if forall i :: 0 <= i < |shown| ==> CardOf(shown[i]).Some? then
      Some(IndexView(seq(|shown|, i requires 0 <= i < |shown| => CardOf(shown[i]).value), |buffer|))
    else None
  }

  /** The page shows at most ten cards, those of the newest entries in
      list order, and it fails exactly when one of them cannot be rendered
      (a payload stored without `location` is enough). */
  lemma IndexShowsNewest(buffer: seq<Object>)
    ensures var shown := LastShown(buffer);
      |shown| == (if |buffer| < Shown then |buffer| else Shown) &&
      (forall i :: 0 <= i < |shown| ==> shown[i] == buffer[|buffer| - |shown| + i]) &&
      (Index(buffer).None? <==> exists i :: 0 <= i < |shown| && CardOf(shown[i]).None?)
    ensures Index(buffer).Some? ==>
      |Index(buffer).value.cards| == |LastShown(buffer)| && Index(buffer).value.total == |buffer| &&
      forall i :: 0 <= i < |LastShown(buffer)| ==>
        var entry := buffer[|buffer| - |LastShown(buffer)| + i];
        Some(Index(buffer).value.cards[i]) == CardOf(entry) &&
        "location" in entry && Index(buffer).value.cards[i].location == entry["location"]
  {
  }

  /** The server's module-level list. */
  class Store {
    var records: seq<Object>

    ghost predicate Valid()
      reads this
    {
      |records| <= Capacity
    }

    constructor ()
      ensures Valid() && records == []
    {
      records := [];
    }

    /** `receive_co2_data()` on the list, in place. */
    method ReceiveCo2Data(body: Option<Object>, formatTime: real -> Option<string>) returns (response: Response)
      requires Valid()
      modifies this`records
      ensures Valid()
      ensures response == Post(old(records), body, formatTime).response
      ensures records == Post(old(records), body, formatTime).buffer
    {
      if body.None? || body.value == map[] {
        return NoJson;
      }
      var data := body.value;
      var text := Stamp(data, formatTime);
      if text.None? {
        return Failed;
      }
      data := data["formatted_time" := Str(text.value)];
      records := records + [data];
      if |records| > Capacity {
        records := records[1..];
      }
      if "co2_ppm" !in data || "air_quality" !in data || "device_id" !in data {
        return Failed;
      }
      response := Received;
    }

    /** `api_status()` on the current list. */
    method Status() returns (report: StatusReport)
      ensures report.totalMeasurements == |records|
      ensures report.lastMeasurement.Some? <==> records != []
      ensures records != [] ==> report.lastMeasurement == Some(records[|records| - 1])
    {
      report := ApiStatus(records);
    }
  }
}
