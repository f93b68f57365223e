/** The hardened handlers of aircarto-server/server_fixed.py: the latest
    readings with per-field defaults and a fallback query, and statistics
    that skip null values and answer with zeros instead of errors. A query
    result is `Some(tables)`, or `None` when the query raised. */
module ServerFixed {
  import opened Common
  import opened AirQuality
  import opened Influx
  import opened Server

  const DefaultDeviceId: string := "aircarto_001"
  const DefaultLocation: string := "salon"

  /** One entry of the `devices` list. */
  datatype Reading = Reading(deviceId: string, location: string, co2: int, airQuality: string, timestamp: int)

  /** Whether `record.get(name)` is truthy: present and not empty. */
  predicate HasTruthyTag(r: Record, name: string)
  {
    name in r.tags && r.tags[name] != ""
  }

  /** `record.get(name) or default`. */
  function TruthyTagOr(r: Record, name: string, default: string): string
  {
    if HasTruthyTag(r, name) then r.tags[name] else default
  }

  /** A record of the primary query; `now` stands for `datetime.utcnow()`. */
  function PrimaryReading(r: Record, now: int): Reading
  {
    Reading(TruthyTagOr(r, "device_id", DefaultDeviceId),
            TruthyTagOr(r, "location", DefaultLocation),
            if r.value.Some? then Trunc(r.value.value) else 0,
            TruthyTagOr(r, "air_quality", "unknown"),
            if r.time.Some? then r.time.value else now)
  }

  /** A record of the fallback query: fixed tags, 400 for a falsy value. */
  function FallbackReading(r: Record, now: int): Reading
  {
    Reading(DefaultDeviceId, DefaultLocation,
            if r.value.Some? && r.value.value != 0.0 then Trunc(r.value.value) else 400,
            "unknown", now)
  }

  /** The first record of every non-empty table, in table order. */
  function FirstRecords(tables: seq<Table>): seq<Record>
  {
    if tables == [] then []
    else
      var last := tables[|tables| - 1];
      FirstRecords(tables[..|tables| - 1]) + (if last == [] then [] else [last[0]])
  }

  datatype LatestReply = LatestReply(status: int, devices: seq<Reading>)

  function LatestReplyFor(queryApi: bool, primary: Option<seq<Table>>, fallback: Option<seq<Table>>, now: int): LatestReply
  {
    if !queryApi then LatestReply(503, [])
    else if primary.Some? then
      var records := Flatten(primary.value);
      LatestReply(200, seq(|records|, i requires 0 <= i < |records| => PrimaryReading(records[i], now)))
    else if fallback.Some? then
      var records := FirstRecords(fallback.value);
      LatestReply(200, seq(|records|, i requires 0 <= i < |records| => FallbackReading(records[i], now)))
    else LatestReply(500, [])
  }

  lemma {:induction false} FirstRecordsSpec(tables: seq<Table>)
    ensures |FirstRecords(tables)| <= |tables|
    ensures forall r :: r in FirstRecords(tables) <==> exists t :: 0 <= t < |tables| && tables[t] != [] && tables[t][0] == r
  {
    if tables != [] {
      var front := tables[..|tables| - 1];
      FirstRecordsSpec(front);
      forall r ensures r in FirstRecords(tables) <==> exists t :: 0 <= t < |tables| && tables[t] != [] && tables[t][0] == r {
        if r in FirstRecords(front) {
          var t :| 0 <= t < |front| && front[t] != [] && front[t][0] == r;
          assert tables[t] == front[t];
        }
        if exists t :: 0 <= t < |tables| && tables[t] != [] && tables[t][0] == r {
          var t :| 0 <= t < |tables| && tables[t] != [] && tables[t][0] == r;
          if t < |front| {
            assert front[t] == tables[t];
          }
        }
      }
    }
  }

  /** Without a query client: 503 and no devices. The primary query reports
      every record in order: each tag is kept when truthy and replaced by
      its default (aircarto_001, salon, unknown) otherwise, co2 is the
      truncated value or 0 for a null one, and the time is the record's or
      `now`. The fallback reports the first record of each non-empty table,
      at most one per table, always for aircarto_001 in the salon with air
      quality "unknown" and time `now`, and co2 400 for a null or zero
      value. */
  lemma LatestReplySpec(queryApi: bool, primary: Option<seq<Table>>, fallback: Option<seq<Table>>, now: int)
    ensures var reply := LatestReplyFor(queryApi, primary, fallback, now);
      (!queryApi ==> reply == LatestReply(503, [])) &&
      (reply.status == 500 <==> queryApi && primary.None? && fallback.None?) &&
      (reply.status == 500 ==> reply.devices == [])
    ensures queryApi && primary.Some? ==>
      var reply := LatestReplyFor(queryApi, primary, fallback, now);
      var records := Flatten(primary.value);
      reply.status == 200 && |reply.devices| == |records| &&
      forall i :: 0 <= i < |records| ==>
        var d, r := reply.devices[i], records[i];
        d == PrimaryReading(r, now) &&
        d.deviceId != "" && d.location != "" &&
        (HasTruthyTag(r, "device_id") ==> d.deviceId == r.tags["device_id"]) &&
        (!HasTruthyTag(r, "device_id") ==> d.deviceId == DefaultDeviceId) &&
        (HasTruthyTag(r, "location") ==> d.location == r.tags["location"]) &&
        (!HasTruthyTag(r, "location") ==> d.location == DefaultLocation) &&
        (HasTruthyTag(r, "air_quality") ==> d.airQuality == r.tags["air_quality"]) &&
        (!HasTruthyTag(r, "air_quality") ==> d.airQuality == "unknown") &&
        (r.value.Some? ==> d.co2 == Trunc(r.value.value)) &&
        (r.value.None? ==> d.co2 == 0) &&
        d.timestamp == (if r.time.Some? then r.time.value else now)
    ensures queryApi && primary.None? && fallback.Some? ==>
      var reply := LatestReplyFor(queryApi, primary, fallback, now);
      var firsts := FirstRecords(fallback.value);
      reply.status == 200 && |reply.devices| == |firsts| <= |fallback.value| &&
      (forall r :: r in firsts <==>
         exists t :: 0 <= t < |fallback.value| && fallback.value[t] != [] && fallback.value[t][0] == r) &&
      forall i :: 0 <= i < |firsts| ==>
        var d, r := reply.devices[i], firsts[i];
        d == FallbackReading(r, now) &&
        d.deviceId == DefaultDeviceId && d.location == DefaultLocation &&
        d.airQuality == "unknown" && d.timestamp == now &&
        ((r.value.None? || r.value == Some(0.0)) ==> d.co2 == 400) &&
        (r.value.Some? && r.value.value != 0.0 ==> d.co2 == Trunc(r.value.value))
  {
    if queryApi && primary.None? && fallback.Some? {
      FirstRecordsSpec(fallback.value);
    }
  }

  /** `get_latest_data()`: the nested loops of the primary query, or the
      fallback loop that takes the first record of each table. */
  method GetLatestData(db: Database, primary: Option<seq<Table>>, fallback: Option<seq<Table>>, now: int)
    returns (reply: LatestReply)
    ensures reply == LatestReplyFor(db.queryApi, primary, fallback, now)
  {
    if !db.queryApi {
      return LatestReply(503, []);
    }
    var devices: seq<Reading> := [];
    if primary.Some? {
      var tables := primary.value;
      for t := 0 to |tables|
        invariant |devices| == |Flatten(tables[..t])|
        invariant forall i :: 0 <= i < |devices| ==> devices[i] == PrimaryReading(Flatten(tables[..t])[i], now)
      {
        var table := tables[t];
        ghost var before := Flatten(tables[..t]);
        for k := 0 to |table|
          invariant |devices| == |before| + k
          invariant forall i :: 0 <= i < |devices| ==> devices[i] == PrimaryReading((before + table[..k])[i], now)
        {
          devices := devices + [PrimaryReading(table[k], now)];
          assert (before + table[..k + 1])[|before| + k] == table[k];
          assert forall i :: 0 <= i < |before| + k ==> (before + table[..k + 1])[i] == (before + table[..k])[i];
        }
        FlattenAround(tables, t);
        assert table[..|table|] == table;
      }
      FlattenAll(tables);
      return LatestReply(200, devices);
    }
    if fallback.None? {
      return LatestReply(500, []);
    }
    var tables := fallback.value;
    for t := 0 to |tables|
      invariant |devices| == |FirstRecords(tables[..t])|
      invariant forall i :: 0 <= i < |devices| ==> devices[i] == FallbackReading(FirstRecords(tables[..t])[i], now)
    {
      assert tables[..t + 1][..t] == tables[..t];
      if |tables[t]| > 0 {
        devices := devices + [FallbackReading(tables[t][0], now)];
      }
    }
    assert tables[..|tables|] == tables;
    reply := LatestReply(200, devices);
  }

  // ---------------------------------------------------------------------
  // GET /api/stats
  // ---------------------------------------------------------------------

  /** The non-null values, in query order. */
  function PresentValues(records: seq<Record>): seq<real>
  {
    if records == [] then []
    else
      var last := records[|records| - 1];
      PresentValues(records[..|records| - 1]) + (if last.value.Some? then [last.value.value] else [])
  }

  lemma {:induction false} PresentValuesSpec(records: seq<Record>)
    ensures |PresentValues(records)| <= |records|
    ensures forall v :: v in PresentValues(records) <==> exists i :: 0 <= i < |records| && records[i].value == Some(v)
  {
    if records != [] {
      var front := records[..|records| - 1];
      PresentValuesSpec(front);
      forall v ensures v in PresentValues(records) <==> exists i :: 0 <= i < |records| && records[i].value == Some(v) {
        if v in PresentValues(front) {
          var i :| 0 <= i < |front| && front[i].value == Some(v);
          assert records[i] == front[i];
        }
        if exists i :: 0 <= i < |records| && records[i].value == Some(v) {
          var i :| 0 <= i < |records| && records[i].value == Some(v);
          if i < |front| {
            assert front[i] == records[i];
          }
        }
      }
    }
  }

  predicate HasTruthyId(r: Record)
  {
    HasTruthyTag(r, "device_id")
  }

  /** The distinct truthy device ids. */
  function TruthyIds(records: seq<Record>): set<string>
  {
    set i | 0 <= i < |records| && HasTruthyId(records[i]) :: records[i].tags["device_id"]
  }

  lemma PresentValuesSnoc(done: seq<Record>, record: Record)
    ensures PresentValues(done + [record]) ==
      PresentValues(done) + (if record.value.Some? then [record.value.value] else [])
  {
    assert (done + [record])[..|done|] == done;
  }

  lemma TruthyIdsSnoc(done: seq<Record>, record: Record)
    ensures TruthyIds(done + [record]) ==
      TruthyIds(done) + (if HasTruthyId(record) then {record.tags["device_id"]} else {})
  {
    var next := done + [record];
    assert next[|done|] == record;
    assert forall i | 0 <= i < |done| :: next[i] == done[i];
  }

  /** `int(min(values))` and `int(max(values))`. */
  function TruncateExtremes(s: Stats): Stats
  {
    s.(minCo2 := Trunc(s.minCo2) as real, maxCo2 := Trunc(s.maxCo2) as real)
  }

  function FixedStatsFor(queryApi: bool, result: Option<seq<Table>>): Stats
  {
    if !queryApi || result.None? then ZeroStats
    else
      var records := Flatten(result.value);
      var values := PresentValues(records);
      if values == [] then ZeroStats
      else TruncateExtremes(Summarize(values, |TruthyIds(records)|))
  }

  /** All zeros without a client, on a query error or without values;
      otherwise the measurements are the non-null values, the buckets
      partition them as the classifier does, the devices are the truthy ids,
      and for non-negative readings the truncated extremes bracket the mean. */
  lemma FixedStatsSpec(queryApi: bool, result: Option<seq<Table>>)
    ensures !queryApi || result.None? ==> FixedStatsFor(queryApi, result) == ZeroStats
    ensures queryApi && result.Some? ==>
      var records := Flatten(result.value);
      var values := PresentValues(records);
      var s := FixedStatsFor(queryApi, result);
      (values == [] ==> s == ZeroStats) &&
      (values != [] ==>
        s.totalMeasurements == |values| <= |records| &&
        (forall v :: v in values <==> exists i :: 0 <= i < |records| && records[i].value == Some(v)) &&
        s.totalDevices == |TruthyIds(records)| &&
        s.excellentCount + s.goodCount + s.mediumCount + s.badCount + s.dangerCount == s.totalMeasurements &&
        s.excellentCount == CountLevel(values, Excellent) && s.goodCount == CountLevel(values, Good) &&
        s.mediumCount == CountLevel(values, Medium) && s.badCount == CountLevel(values, Bad) &&
        s.dangerCount == CountLevel(values, Danger) &&
        s.minCo2 == Trunc(MinOf(values)) as real && s.maxCo2 == Trunc(MaxOf(values)) as real &&
        (MinOf(values) >= 0.0 ==> s.minCo2 <= s.avgCo2 < s.maxCo2 + 1.0))
  {
    if queryApi && result.Some? {
      var records := Flatten(result.value);
      var values := PresentValues(records);
      PresentValuesSpec(records);
      if values != [] {
        SummarizeBuckets(values, |TruthyIds(records)|);
        SummarizeMeanBetween(values, |TruthyIds(records)|);
      }
    }
  }

  /** `get_stats()`: the nested loops skip null values and falsy ids. */
  method GetStats(db: Database, result: Option<seq<Table>>) returns (stats: Stats)
    ensures stats == FixedStatsFor(db.queryApi, result)
  {
    if !db.queryApi || result.None? {
      return ZeroStats;
    }
    var tables := result.value;
    var values: seq<real> := [];
    var devices: set<string> := {};
    for t := 0 to |tables|
      invariant values == PresentValues(Flatten(tables[..t]))
      invariant devices == TruthyIds(Flatten(tables[..t]))
    {
      var table := tables[t];
      ghost var before := Flatten(tables[..t]);
      assert before + table[..0] == before;
      for k := 0 to |table|
        invariant values == PresentValues(before + table[..k])
        invariant devices == TruthyIds(before + table[..k])
      {
        var record := table[k];
        assert before + table[..k + 1] == (before + table[..k]) + [record];
        PresentValuesSnoc(before + table[..k], record);
        TruthyIdsSnoc(before + table[..k], record);
        if record.value.Some? {
          values := values + [record.value.value];
        }
        if "device_id" in record.tags && record.tags["device_id"] != "" {
          devices := devices + {record.tags["device_id"]};
        }
      }
      FlattenAround(tables, t);
      assert table[..|table|] == table;
    }
    FlattenAll(tables);
    if values == [] {
      return ZeroStats;
    }
    stats := TruncateExtremes(Summarize(values, |devices|));
  }
}
