/** The InfluxDB-backed web server (aircarto-server/server.py): ingest
    validation for POST /api/co2, the latest reading per record for
    /api/data/latest, and the aggregate statistics of /api/stats. The
    `write_api` and `query_api` globals are the fields of `Database`; query
    results are inputs. */
module Server {
  import opened Common
  import opened Json
  import opened AirQuality
  import opened Influx

  datatype Response = Response(status: int, message: string)

  const NoJsonMessage: string := "No JSON data received"
  /** The body of a 500 reply carries the exception's text, which is not modelled. */
  const InternalErrorMessage: string := "internal error"
  const Stored: Response := Response(200, "Data stored")

  const RequiredFields: seq<string> := ["device_id", "co2_ppm", "air_quality"]

  /** The server's connection state and what it has written. */
  class Database {
    const writeApi: bool
    const queryApi: bool
    var written: seq<Measurement>

    constructor (writeApi: bool, queryApi: bool)
      ensures this.writeApi == writeApi && this.queryApi == queryApi && written == []
    {
      this.writeApi := writeApi;
      this.queryApi := queryApi;
      written := [];
    }
  }

  // ---------------------------------------------------------------------
  // POST /api/co2
  // ---------------------------------------------------------------------

  /** The first required field, in order, that the payload lacks. */
  function FirstMissing(data: Object, fields: seq<string>): Option<string>
  {
    if fields == [] then None
    else if fields[0] !in data then Some(fields[0])
    else FirstMissing(data, fields[1..])
  }

  /** device_id is checked first, then co2_ppm, then air_quality. */
  lemma MissingFieldOrder(data: Object)
    ensures "device_id" !in data ==> FirstMissing(data, RequiredFields) == Some("device_id")
    ensures "device_id" in data && "co2_ppm" !in data ==>
      FirstMissing(data, RequiredFields) == Some("co2_ppm")
    ensures "device_id" in data && "co2_ppm" in data && "air_quality" !in data ==>
      FirstMissing(data, RequiredFields) == Some("air_quality")
    ensures FirstMissing(data, RequiredFields).None? <==>
      "device_id" in data && "co2_ppm" in data && "air_quality" in data
  {
    var fields := RequiredFields;
    assert fields[1..] == ["co2_ppm", "air_quality"];
    assert fields[1..][1..] == ["air_quality"];
    assert fields[1..][1..][1..] == [];
    if "device_id" in data {
      assert FirstMissing(data, fields) == FirstMissing(data, fields[1..]);
      if "co2_ppm" in data {
        assert FirstMissing(data, fields[1..]) == FirstMissing(data, fields[1..][1..]);
      }
    }
  }

  /** The point written for one payload. */
  datatype Measurement = Measurement(
    deviceId: Value, location: Value, airQuality: Value,
    co2: real, temperature: Option<real>, humidity: Option<real>, time: int)

  /** An optional numeric field: absent, converted, or failing `float()`. */
  datatype FieldValue = Absent | Present(x: real) | Unconvertible

  function OptionalFloat(data: Object, name: string): FieldValue
  {
    if name !in data then Absent
    else match Float(data[name])
      case Some(x) => Present(x)
      case None => Unconvertible
  }

  function PresentValue(f: FieldValue): Option<real>
  {
    if f.Present? then Some(f.x) else None
  }

  /** The point built for a payload that has the required fields; `None`
      when a `float()` conversion raises. `now` is the server's clock. */
  function BuildPoint(data: Object, now: int): Option<Measurement>
    requires forall i :: 0 <= i < |RequiredFields| ==> RequiredFields[i] in data
  {
    assert "device_id" == RequiredFields[0] && "co2_ppm" == RequiredFields[1] && "air_quality" == RequiredFields[2];
    match Float(data["co2_ppm"])
    case None => None
    case Some(co2) =>
      var temperature := OptionalFloat(data, "temperature");
      var humidity := OptionalFloat(data, "humidity");
      if temperature.Unconvertible? || humidity.Unconvertible? then None
      else
        var location := if "location" in data then data["location"] else Str("unknown");
        Some(Measurement(data["device_id"], location, data["air_quality"], co2,
                         PresentValue(temperature), PresentValue(humidity), now))
  }

  datatype Outcome = Accepted(point: Measurement) | Rejected(response: Response)

  /** What `receive_co2_data` decides for a request body (`None` when the
      request carried no JSON). */
  function Ingest(body: Option<Object>, now: int): Outcome
  {
    if body.None? || body.value == map[] then Rejected(Response(400, NoJsonMessage))
    else
      var data := body.value;
      match FirstMissing(data, RequiredFields)
      case Some(field) => Rejected(Response(400, "Missing field: " + field))
      case None =>
        MissingFieldOrder(data);
        match BuildPoint(data, now)
        case None => Rejected(Response(500, InternalErrorMessage))
        case Some(point) => Accepted(point)
  }

  function ReplyFor(outcome: Outcome): Response
  {
    match outcome
    case Accepted(_) => Stored
    case Rejected(response) => response
  }

  /** A payload is accepted exactly when it is a non-empty object with the
      three required fields, whose co2_ppm converts to a float, and whose
      temperature and humidity convert when present. */
  lemma IngestAcceptsExactly(body: Option<Object>, now: int)
    ensures Ingest(body, now).Accepted? <==>
      body.Some? && body.value != map[] &&
      "device_id" in body.value && "co2_ppm" in body.value && "air_quality" in body.value &&
      Float(body.value["co2_ppm"]).Some? &&
      ("temperature" in body.value ==> Float(body.value["temperature"]).Some?) &&
      ("humidity" in body.value ==> Float(body.value["humidity"]).Some?)
  {
    if body.Some? && body.value != map[] {
      MissingFieldOrder(body.value);
    }
  }

  /** The accepted point: the payload's tags, location "unknown" when the
      payload has none, co2_ppm as a float, and temperature and humidity
      exactly when the payload has them. */
  lemma IngestPoint(data: Object, now: int)
    requires Ingest(Some(data), now).Accepted?
    ensures var p := Ingest(Some(data), now).point;
      "device_id" in data && "co2_ppm" in data && "air_quality" in data &&
      p.deviceId == data["device_id"] && p.airQuality == data["air_quality"] &&
      p.location == (if "location" in data then data["location"] else Str("unknown")) &&
      Some(p.co2) == Float(data["co2_ppm"]) &&
      (p.temperature.Some? <==> "temperature" in data) &&
      (p.temperature.Some? ==> p.temperature == Float(data["temperature"])) &&
      (p.humidity.Some? <==> "humidity" in data) &&
      (p.humidity.Some? ==> p.humidity == Float(data["humidity"])) &&
      p.time == now
  {
    MissingFieldOrder(data);
  }

  /** The two 400 replies: no JSON, and the first missing required field. */
  lemma IngestRejects(body: Option<Object>, now: int)
    ensures body.None? || body == Some(map[]) ==>
      Ingest(body, now) == Rejected(Response(400, NoJsonMessage))
    ensures body.Some? && body.value != map[] && FirstMissing(body.value, RequiredFields).Some? ==>
      Ingest(body, now) ==
        Rejected(Response(400, "Missing field: " + FirstMissing(body.value, RequiredFields).value))
  {
  }

  /** `receive_co2_data()`: validate, build the point, write it when a write
      client exists, and answer 200 whether or not a client was there.
      `writeOk` is false when `write_api.write` raises: nothing is stored and
      the reply is 500. */
  method ReceiveCo2Data(db: Database, body: Option<Object>, now: int, writeOk: bool) returns (response: Response)
    modifies db`written
    ensures response ==
      if Ingest(body, now).Accepted? && db.writeApi && !writeOk then Response(500, InternalErrorMessage)
      else ReplyFor(Ingest(body, now))
    ensures db.written ==
      if Ingest(body, now).Accepted? && db.writeApi && writeOk then old(db.written) + [Ingest(body, now).point]
      else old(db.written)
  {
    if body.None? || body.value == map[] {
      return Response(400, NoJsonMessage);
    }
    var data := body.value;
    for i := 0 to |RequiredFields|
      invariant forall j :: 0 <= j < i ==> RequiredFields[j] in data
    {
      if RequiredFields[i] !in data {
        MissingFieldOrder(data);
        return Response(400, "Missing field: " + RequiredFields[i]);
      }
    }
    MissingFieldOrder(data);
    var point := BuildPoint(data, now);
    assert RequiredFields[0] in data && RequiredFields[1] in data && RequiredFields[2] in data;
    if point.None? {
      return Response(500, InternalErrorMessage);
    }
    if db.writeApi {
      if !writeOk {
        return Response(500, InternalErrorMessage);
      }
      db.written := db.written + [point.value];
    }
    response := Stored;
  }

  // ---------------------------------------------------------------------
  // GET /api/data/latest
  // ---------------------------------------------------------------------

  datatype Device = Device(deviceId: string, location: string, co2: Option<real>, airQuality: string, timestamp: int)

  function TagOr(r: Record, name: string, default: string): string
  {
    if name in r.tags then r.tags[name] else default
  }

  /** One record as reported; `None` when `record["device_id"]` or the
      timestamp's `isoformat()` raises. */
  function LatestDevice(r: Record): Option<Device>
  {
    if "device_id" !in r.tags || r.time.None? then None
    else Some(Device(r.tags["device_id"], TagOr(r, "location", "unknown"), r.value,
                     TagOr(r, "air_quality", "unknown"), r.time.value))
  }

  datatype LatestReply = Devices(devices: seq<Device>) | LatestError(status: int)

  /** The reply for a query result: `Some(tables)`, or `None` when
      `query_api.query` raised. */
  function LatestReplyFor(queryApi: bool, result: Option<seq<Table>>): LatestReply
  {
    if !queryApi then LatestError(503)
    else if result.None? then LatestError(500)
    else
      var records := Flatten(result.value);
      if forall i :: 0 <= i < |records| ==> LatestDevice(records[i]).Some? then
        Devices(seq(|records|, i requires 0 <= i < |records| => LatestDevice(records[i]).value))
      else LatestError(500)
  }

  /** One device per record, in query order, with the record's own id and
      time; location and air quality are "unknown" only when the tag is
      absent. A failing query, or any record without a device id or a time,
      makes the reply 500, and without a query client it is 503. */
  lemma LatestReplyShape(queryApi: bool, result: Option<seq<Table>>)
    ensures !queryApi ==> LatestReplyFor(queryApi, result) == LatestError(503)
    ensures queryApi && result.None? ==> LatestReplyFor(queryApi, result) == LatestError(500)
    ensures LatestReplyFor(queryApi, result).Devices? ==> queryApi && result.Some?
    ensures result.Some? ==> var records := Flatten(result.value);
      queryApi && (exists i :: 0 <= i < |records| && ("device_id" !in records[i].tags || records[i].time.None?)) ==>
        LatestReplyFor(queryApi, result) == LatestError(500)
    ensures result.Some? ==> var records := Flatten(result.value);
      LatestReplyFor(queryApi, result).Devices? ==>
        var ds := LatestReplyFor(queryApi, result).devices;
        |ds| == |records| &&
        forall i :: 0 <= i < |records| ==>
          "device_id" in records[i].tags && records[i].time.Some? &&
          ds[i].deviceId == records[i].tags["device_id"] &&
          ds[i].timestamp == records[i].time.value &&
          ds[i].co2 == records[i].value &&
          (ds[i].location == if "location" in records[i].tags then records[i].tags["location"] else "unknown") &&
          (ds[i].airQuality == if "air_quality" in records[i].tags then records[i].tags["air_quality"] else "unknown")
  {
  }

  /** `get_latest_data()`: the nested loops over tables and records. */
  method GetLatestData(db: Database, result: Option<seq<Table>>) returns (reply: LatestReply)
    ensures reply == LatestReplyFor(db.queryApi, result)
  {
    if !db.queryApi {
      return LatestError(503);
    }
    if result.None? {
      return LatestError(500);
    }
    var tables := result.value;
    var devices: seq<Device> := [];
    for t := 0 to |tables|
      invariant |devices| == |Flatten(tables[..t])|
      invariant forall i :: 0 <= i < |devices| ==>
        LatestDevice(Flatten(tables[..t])[i]) == Some(devices[i])
    {
      var table := tables[t];
      ghost var before := Flatten(tables[..t]);
      for k := 0 to |table|
        invariant |devices| == |before| + k
        invariant forall i :: 0 <= i < |devices| ==>
          LatestDevice((before + table[..k])[i]) == Some(devices[i])
      {
        var record := table[k];
        var device := LatestDevice(record);
        if device.None? {
          FlattenAround(tables, t);
          assert Flatten(tables)[|before| + k] == record;
          return LatestError(500);
        }
        devices := devices + [device.value];
        assert (before + table[..k + 1])[|before| + k] == record;
        assert forall i :: 0 <= i < |before| + k ==> (before + table[..k + 1])[i] == (before + table[..k])[i];
      }
      FlattenAround(tables, t);
      assert table[..|table|] == table;
    }
    FlattenAll(tables);
    reply := Devices(devices);
  }

  // ---------------------------------------------------------------------
  // GET /api/stats
  // ---------------------------------------------------------------------

  datatype Stats = Stats(
    totalDevices: nat, totalMeasurements: nat,
    avgCo2: real, minCo2: real, maxCo2: real,
    excellentCount: nat, goodCount: nat, mediumCount: nat, badCount: nat, dangerCount: nat)

  const ZeroStats: Stats := Stats(0, 0, 0.0, 0.0, 0.0, 0, 0, 0, 0, 0)

  function Sum(vs: seq<real>): real
  {
    if vs == [] then 0.0 else vs[0] + Sum(vs[1..])
  }

  /** Python's `min` of a non-empty list. */
  function MinOf(vs: seq<real>): real
    requires vs != []
  {
    if |vs| == 1 then vs[0]
    else var m := MinOf(vs[1..]); if vs[0] <= m then vs[0] else m
  }

  /** Python's `max` of a non-empty list. */
  function MaxOf(vs: seq<real>): real
    requires vs != []
  {
    if |vs| == 1 then vs[0]
    else var m := MaxOf(vs[1..]); if vs[0] >= m then vs[0] else m
  }

  function CountWhere(vs: seq<real>, p: real -> bool): nat
  {
    if vs == [] then 0 else (if p(vs[0]) then 1 else 0) + CountWhere(vs[1..], p)
  }

  // The five bucket conditions exactly as the comprehensions write them.
  predicate ExcellentBucket(v: real) { v < 400.0 }
  predicate GoodBucket(v: real) { 400.0 <= v < 600.0 }
  predicate MediumBucket(v: real) { 600.0 <= v < 1000.0 }
  predicate BadBucket(v: real) { 1000.0 <= v < 1500.0 }
  predicate DangerBucket(v: real) { v >= 1500.0 }

  /** The statistics of a non-empty list of values, or all zeros. */
  function Summarize(values: seq<real>, deviceCount: nat): Stats
  {
    if values == [] then ZeroStats
    else Stats(deviceCount, |values|,
               Sum(values) / |values| as real, MinOf(values), MaxOf(values),
               CountWhere(values, ExcellentBucket), CountWhere(values, GoodBucket),
               CountWhere(values, MediumBucket), CountWhere(values, BadBucket),
               CountWhere(values, DangerBucket))
  }

  lemma {:induction false} MinMaxBounds(vs: seq<real>)
    requires vs != []
    ensures MinOf(vs) in vs && MaxOf(vs) in vs
    ensures forall i :: 0 <= i < |vs| ==> MinOf(vs) <= vs[i] <= MaxOf(vs)
  {
    if |vs| > 1 {
      MinMaxBounds(vs[1..]);
      forall i | 1 <= i < |vs| ensures MinOf(vs) <= vs[i] <= MaxOf(vs) {
        assert vs[i] == vs[1..][i - 1];
      }
    }
  }

  lemma {:induction false} SumAtLeast(vs: seq<real>, lo: real)
    requires forall i :: 0 <= i < |vs| ==> lo <= vs[i]
    ensures |vs| as real * lo <= Sum(vs)
  {
    if vs != [] {
      var rest := vs[1..];
      assert forall i :: 0 <= i < |rest| ==> lo <= rest[i] by {
        forall i | 0 <= i < |rest| ensures lo <= rest[i] { assert rest[i] == vs[i + 1]; }
      }
      SumAtLeast(rest, lo);
      assert |vs| as real * lo == |rest| as real * lo + lo;
    }
  }

  lemma {:induction false} SumAtMost(vs: seq<real>, hi: real)
    requires forall i :: 0 <= i < |vs| ==> vs[i] <= hi
    ensures Sum(vs) <= |vs| as real * hi
  {
    if vs != [] {
      var rest := vs[1..];
      assert forall i :: 0 <= i < |rest| ==> rest[i] <= hi by {
        forall i | 0 <= i < |rest| ensures rest[i] <= hi { assert rest[i] == vs[i + 1]; }
      }
      SumAtMost(rest, hi);
      assert |vs| as real * hi == |rest| as real * hi + hi;
    }
  }

  lemma DivideBetween(lo: real, s: real, hi: real, n: real)
    requires n > 0.0 && n * lo <= s <= n * hi
    ensures lo <= s / n <= hi
  {
  }

  /** min_co2 <= avg_co2 <= max_co2, with min and max taken from the values
      and bounding every one of them. */
  lemma SummarizeMeanBetween(values: seq<real>, deviceCount: nat)
    requires values != []
    ensures var s := Summarize(values, deviceCount);
      s.minCo2 <= s.avgCo2 <= s.maxCo2 &&
      s.minCo2 in values && s.maxCo2 in values &&
      forall i :: 0 <= i < |values| ==> s.minCo2 <= values[i] <= s.maxCo2
  {
    MinMaxBounds(values);
    SumAtLeast(values, MinOf(values));
    SumAtMost(values, MaxOf(values));
    DivideBetween(MinOf(values), Sum(values), MaxOf(values), |values| as real);
  }

  lemma {:induction false} BucketsPartition(vs: seq<real>)
    ensures CountWhere(vs, ExcellentBucket) + CountWhere(vs, GoodBucket) + CountWhere(vs, MediumBucket) +
            CountWhere(vs, BadBucket) + CountWhere(vs, DangerBucket) == |vs|
  {
    if vs != [] {
      BucketsPartition(vs[1..]);
    }
  }

  /** Values of one band, as the classifier labels it. */
  function CountLevel(vs: seq<real>, l: Level): nat
  {
    if vs == [] then 0 else (if Classify(vs[0]) == l then 1 else 0) + CountLevel(vs[1..], l)
  }

  lemma {:induction false} BucketsAreBands(vs: seq<real>)
    ensures CountWhere(vs, ExcellentBucket) == CountLevel(vs, Excellent)
    ensures CountWhere(vs, GoodBucket) == CountLevel(vs, Good)
    ensures CountWhere(vs, MediumBucket) == CountLevel(vs, Medium)
    ensures CountWhere(vs, BadBucket) == CountLevel(vs, Bad)
    ensures CountWhere(vs, DangerBucket) == CountLevel(vs, Danger)
  {
    if vs != [] {
      BucketsAreBands(vs[1..]);
    }
  }

  /** The five bucket counts partition the measurements, and each counts
      exactly the values the classifier puts in that band. */
  lemma SummarizeBuckets(values: seq<real>, deviceCount: nat)
    ensures var s := Summarize(values, deviceCount);
      s.excellentCount + s.goodCount + s.mediumCount + s.badCount + s.dangerCount == s.totalMeasurements &&
      s.totalMeasurements == |values| &&
      s.excellentCount == CountLevel(values, Excellent) &&
      s.goodCount == CountLevel(values, Good) &&
      s.mediumCount == CountLevel(values, Medium) &&
      s.badCount == CountLevel(values, Bad) &&
      s.dangerCount == CountLevel(values, Danger)
  {
    BucketsPartition(values);
    BucketsAreBands(values);
  }

  datatype StatsReply = StatsBody(stats: Stats) | StatsError(status: int)

  predicate AllHaveDeviceId(records: seq<Record>)
  {
    forall i :: 0 <= i < |records| ==> "device_id" in records[i].tags
  }

  predicate AllHaveValue(records: seq<Record>)
  {
    forall i :: 0 <= i < |records| ==> records[i].value.Some?
  }

  function DeviceIds(records: seq<Record>): set<string>
    requires AllHaveDeviceId(records)
  {
    set i | 0 <= i < |records| :: records[i].tags["device_id"]
  }

  function ValuesOf(records: seq<Record>): seq<real>
    requires AllHaveValue(records)
  {
    seq(|records|, i requires 0 <= i < |records| => records[i].value.value)
  }

  /** `get_stats()`: 503 without a query client; 500 when the query raises
      (`None`), when a record has no device_id (`record["device_id"]`
      raises) or when a value is null (`sum` raises); otherwise the
      statistics over all values and distinct device ids. */
  function StatsReplyFor(queryApi: bool, result: Option<seq<Table>>): StatsReply
  {
    if !queryApi then StatsError(503)
    else if result.None? then StatsError(500)
    else
      var records := Flatten(result.value);
      if !AllHaveDeviceId(records) || !AllHaveValue(records) then StatsError(500)
      else StatsBody(Summarize(ValuesOf(records), |DeviceIds(records)|))
  }

  /** For no values every field is 0; otherwise total_devices counts the
      distinct device ids and total_measurements the records. */
  lemma StatsReplyTotals(queryApi: bool, result: Option<seq<Table>>)
    requires StatsReplyFor(queryApi, result).StatsBody?
    ensures queryApi && result.Some?
    ensures var records := Flatten(result.value);
      var s := StatsReplyFor(queryApi, result).stats;
      (records == [] ==> s == ZeroStats) &&
      (records != [] ==> s.totalMeasurements == |records| &&
                         s.totalDevices == |DeviceIds(records)| && s.totalDevices >= 1)
  {
    var records := Flatten(result.value);
    if records != [] {
      assert records[0].tags["device_id"] in DeviceIds(records);
    }
  }

  /** `get_stats()`: the nested loops collect the values and the set of
      device ids, then the statistics are computed. */
  method GetStats(db: Database, result: Option<seq<Table>>) returns (reply: StatsReply)
    ensures reply == StatsReplyFor(db.queryApi, result)
  {
    if !db.queryApi {
      return StatsError(503);
    }
    if result.None? {
      return StatsError(500);
    }
    var tables := result.value;
    var values: seq<Option<real>> := [];
    var devices: set<string> := {};
    for t := 0 to |tables|
      invariant AllHaveDeviceId(Flatten(tables[..t]))
      invariant |values| == |Flatten(tables[..t])|
      invariant forall i :: 0 <= i < |values| ==> values[i] == Flatten(tables[..t])[i].value
      invariant devices == DeviceIds(Flatten(tables[..t]))
    {
      var table := tables[t];
      ghost var before := Flatten(tables[..t]);
      for k := 0 to |table|
        invariant AllHaveDeviceId(before + table[..k])
        invariant |values| == |before| + k
        invariant forall i :: 0 <= i < |values| ==> values[i] == (before + table[..k])[i].value
        invariant devices == DeviceIds(before + table[..k])
      {
        var record := table[k];
        if "device_id" !in record.tags {
          FlattenAround(tables, t);
          assert Flatten(tables)[|before| + k] == record;
          return StatsError(500);
        }
        ghost var done := before + table[..k];
        ghost var next := before + table[..k + 1];
        assert next == done + [record];
        values := values + [record.value];
        devices := devices + {record.tags["device_id"]};
        assert DeviceIds(next) == DeviceIds(done) + {record.tags["device_id"]} by {
          assert next[|done|] == record;
          forall i | 0 <= i < |done| ensures next[i] == done[i] { }
        }
      }
      FlattenAround(tables, t);
      assert table[..|table|] == table;
    }
    FlattenAll(tables);
    var records := Flatten(tables);
    var present: seq<real> := [];
    for i := 0 to |values|
      invariant |present| == i
      invariant forall j :: 0 <= j < i ==> values[j].Some? && present[j] == values[j].value
    {
      if values[i].None? {
        return StatsError(500);
      }
      present := present + [values[i].value];
    }
    assert present == ValuesOf(records);
    reply := StatsBody(Summarize(present, |devices|));
  }
}
