/** The demo-data generator (aircarto-server/add_demo_data.py): seven days
    of five-minute readings for one device, and their upload in batches of
    1000. The random draws and the trigonometric daily cycle are
    parameters: `hourly(day, hour)` is the hour's raw value before clamping
    and `micro(day, hour, minute)` the per-reading variation. Times are
    seconds. */
module DemoData {
  import opened Common
  import opened AirQuality

  const PointsPerHour: nat := 12
  const PointsPerDay: nat := 288
  const StepSeconds: nat := 300
  const BatchSize: nat := 1000
  const DeviceId: string := "aircarto_001"
  const Location: string := "salon"

  /** `get_air_quality(co2_ppm)`. */
  function GetAirQuality(co2: real): string
  {
    if co2 < 400.0 then "excellent"
    else if co2 < 600.0 then "good"
    else if co2 < 1000.0 then "medium"
    else if co2 < 1500.0 then "bad"
    else "danger"
  }

  /** The tag agrees with the band of the reference classifier. */
  lemma GetAirQualityAgrees(co2: real)
    ensures GetAirQuality(co2) == EnglishTag(Classify(co2))
  {
  }

  /** Python's `round(x)`: nearest integer, ties to the even one. */
  function RoundHalfEven(x: real): (r: int)
    ensures (r as real - x) * 2.0 <= 1.0 && (x - r as real) * 2.0 <= 1.0
    ensures x - r as real == 0.5 || r as real - x == 0.5 ==> r % 2 == 0
  {
    var f := x.Floor;
    var frac := x - f as real;
    if frac < 0.5 then f
    else if frac > 0.5 then f + 1
    else if f % 2 == 0 then f else f + 1
  }

  /** The hour's value: at least 350, capped at 2000. */
  function ClampHourly(raw: real): (v: real)
    ensures 350.0 <= v <= 2000.0
    ensures 350.0 <= raw <= 2000.0 ==> v == raw
  {
    var low := if raw > 350.0 then raw else 350.0;
    if low < 2000.0 then low else 2000.0
  }

  /** A reading's unrounded value: at least 350, with no cap. */
  function FinalValue(base: real, variation: real): (v: real)
    ensures v >= 350.0 && v >= base + variation
    ensures base + variation >= 350.0 ==> v == base + variation
  {
    if base + variation > 350.0 then base + variation else 350.0
  }

  datatype DemoPoint = DemoPoint(time: int, co2: int, airQuality: string, deviceId: string, location: string)

  /** The reading for `minute = 5 * m` of `hour` on `day`. */
  function PointFor(day: nat, hour: nat, m: nat, start: int,
                    hourly: (nat, nat) -> real, micro: (nat, nat, nat) -> real): DemoPoint
  {
    var base := ClampHourly(hourly(day, hour));
    var final := FinalValue(base, micro(day, hour, 5 * m));
    DemoPoint(start + day * 86400 + hour * 3600 + 5 * m * 60,
              RoundHalfEven(final), GetAirQuality(final), DeviceId, Location)
  }

  /** The `i`-th reading of the list. */
  function PointAt(i: nat, start: int, hourly: (nat, nat) -> real, micro: (nat, nat, nat) -> real): DemoPoint
  {
    PointFor(i / PointsPerDay, (i % PointsPerDay) / PointsPerHour, i % PointsPerHour, start, hourly, micro)
  }

  /** `range(days)` is empty for a negative count. */
  function PointCount(days: int): nat
  {
    if days > 0 then days * PointsPerDay else 0
  }

  lemma Decompose(day: nat, hour: nat, m: nat)
    requires hour < 24 && m < PointsPerHour
    ensures var i := day * PointsPerDay + hour * PointsPerHour + m;
      i / PointsPerDay == day && (i % PointsPerDay) / PointsPerHour == hour && i % PointsPerHour == m
  {
    var r := hour * PointsPerHour + m;
    var i := day * PointsPerDay + r;
    assert 0 <= r < PointsPerDay;
    assert i / PointsPerDay == day && i % PointsPerDay == r;
    assert r / PointsPerHour == hour && r % PointsPerHour == m;
    assert i == (day * 24 + hour) * PointsPerHour + m;
  }

  /** Every reading is five minutes after the previous one, is at least 350
      ppm once rounded, carries the tag of its unrounded value and the fixed
      device and location. */
  lemma PointAtSpec(i: nat, start: int, hourly: (nat, nat) -> real, micro: (nat, nat, nat) -> real)
    ensures var p := PointAt(i, start, hourly, micro);
      var day, hour, m := i / PointsPerDay, (i % PointsPerDay) / PointsPerHour, i % PointsPerHour;
      var final := FinalValue(ClampHourly(hourly(day, hour)), micro(day, hour, 5 * m));
      p.time == start + StepSeconds * i &&
      p.co2 >= 350 &&
      p.airQuality == EnglishTag(Classify(final)) &&
      p.deviceId == DeviceId && p.location == Location
  {
    var day, r := i / PointsPerDay, i % PointsPerDay;
    var hour, m := r / PointsPerHour, r % PointsPerHour;
    assert i == day * PointsPerDay + r;
    assert r == hour * PointsPerHour + m;
    assert day * 86400 + hour * 3600 + 5 * m * 60 == StepSeconds * (day * PointsPerDay + hour * PointsPerHour + m);
  }

  /** Timestamps strictly increase in list order. */
  lemma TimesIncrease(i: nat, j: nat, start: int, hourly: (nat, nat) -> real, micro: (nat, nat, nat) -> real)
    requires i < j
    ensures PointAt(i, start, hourly, micro).time < PointAt(j, start, hourly, micro).time
  {
    PointAtSpec(i, start, hourly, micro);
    PointAtSpec(j, start, hourly, micro);
  }

  /** co2_ppm is rounded but the tag is not: 399.75 ppm is stored as 400
      and still tagged excellent, while 400 itself is good. */
  lemma TagUsesUnroundedValue()
    ensures RoundHalfEven(399.75) == 400
    ensures GetAirQuality(399.75) == "excellent" && GetAirQuality(400.0) == "good"
  {
    assert (399.75).Floor == 399;
  }

  /** `generate_realistic_co2_data(days)`: the day/hour/minute loops. */
  method GenerateRealisticCo2Data(days: int, start: int,
                                  hourly: (nat, nat) -> real, micro: (nat, nat, nat) -> real)
    returns (points: seq<DemoPoint>)
    ensures |points| == PointCount(days)
    ensures forall i :: 0 <= i < |points| ==> points[i] == PointAt(i, start, hourly, micro)
  {
    points := [];
    var dayCount := if days > 0 then days else 0;
    for day := 0 to dayCount
      invariant |points| == day * PointsPerDay
      invariant forall i :: 0 <= i < |points| ==> points[i] == PointAt(i, start, hourly, micro)
    {
      for hour := 0 to 24
        invariant |points| == day * PointsPerDay + hour * PointsPerHour
        invariant forall i :: 0 <= i < |points| ==> points[i] == PointAt(i, start, hourly, micro)
      {
        var value := ClampHourly(hourly(day, hour));
        for m := 0 to PointsPerHour
          invariant |points| == day * PointsPerDay + hour * PointsPerHour + m
          invariant forall i :: 0 <= i < |points| ==> points[i] == PointAt(i, start, hourly, micro)
        {
          var minute := 5 * m;
          var final := FinalValue(value, micro(day, hour, minute));
          var point := DemoPoint(start + day * 86400 + hour * 3600 + minute * 60,
                                 RoundHalfEven(final), GetAirQuality(final), DeviceId, Location);
          Decompose(day, hour, m);
          points := points + [point];
        }
      }
    }
  }

  /** The concatenation of batches. */
  function Concat(batches: seq<seq<DemoPoint>>): seq<DemoPoint>
  {
    if batches == [] then [] else Concat(batches[..|batches| - 1]) + batches[|batches| - 1]
  }

  /** The number of batches `add_demo_data` announces. */
  function BatchCount(n: nat): nat
  {
    if n == 0 then 0 else (n - 1) / BatchSize + 1
  }

  /** The batching loop of `add_demo_data`: slices of at most 1000 points
      that concatenate back to the whole list, as many as announced. */
  method MakeBatches(points: seq<DemoPoint>) returns (batches: seq<seq<DemoPoint>>)
    ensures Concat(batches) == points
    ensures |batches| == BatchCount(|points|)
    ensures forall b :: 0 <= b < |batches| ==> 0 < |batches[b]| <= BatchSize
  {
    batches := [];
    var i := 0;
    while i < |points|
      invariant i == BatchSize * |batches|
      invariant i <= |points| ==> Concat(batches) == points[..i]
      invariant i > |points| ==> Concat(batches) == points && i < |points| + BatchSize
      invariant forall b :: 0 <= b < |batches| ==> 0 < |batches[b]| <= BatchSize
      decreases |points| - i
    {
      var end := if i + BatchSize < |points| then i + BatchSize else |points|;
      var batch := points[i..end];
      assert Concat(batches + [batch]) == Concat(batches) + batch by {
        assert (batches + [batch])[..|batches|] == batches;
      }
      assert points[..i] + points[i..end] == points[..end];
      batches := batches + [batch];
      i := i + BatchSize;
    }
    if i <= |points| {
      assert points[..i] == points;
    }
    assert |points| > 0 ==> BatchSize * (|batches| - 1) < |points| <= BatchSize * |batches|;
  }
}
