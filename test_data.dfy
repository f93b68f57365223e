/** The load-test script (aircarto-server/test_data.py): the synthetic
    payload it posts, the success and total counters of the continuous and
    stress tests, the stress-test device ids and the menu's number input.
    Random draws, the clock and the outcome of each HTTP post are
    arguments. */
module TestData {
  import opened Common
  import opened Json
  import opened AirQuality
  import Server

  /** The label of a generated reading. */
  function QualityLabel(co2: int): string
  {
    if co2 < 400 then "EXCELLENT"
    else if co2 < 600 then "BON"
    else if co2 < 1000 then "MOYEN"
    else if co2 < 1500 then "MAUVAIS"
    else "DANGER"
  }

  /** The same labels as the firmware's status screen, band by band. */
  lemma QualityLabelAgrees(co2: int)
    ensures QualityLabel(co2) == FrenchLabel(Classify(co2 as real))
  {
  }

  /** `max(300, base_co2 + variation)` with `base_co2 = 400 + baseDraw`. */
  function Co2Reading(baseDraw: int, variation: int): int
  {
    var raw := 400 + baseDraw + variation;
    if raw > 300 then raw else 300
  }

  /** With `randint(0, 800)` and `randint(-50, 50)` draws the reading lies in
      350..1250, so the floor at 300 never applies and DANGER never occurs. */
  lemma Co2ReadingRange(baseDraw: int, variation: int)
    requires 0 <= baseDraw <= 800 && -50 <= variation <= 50
    ensures 350 <= Co2Reading(baseDraw, variation) <= 1250
    ensures Co2Reading(baseDraw, variation) == 400 + baseDraw + variation
    ensures QualityLabel(Co2Reading(baseDraw, variation)) != "DANGER"
  {
  }

  /** `generate_test_data(device_id, location)`; `temperature` and `humidity`
      are the already-rounded random draws and `timestamp` is `time.time()`. */
  function GenerateTestData(deviceId: string, location: string, baseDraw: int, variation: int,
                            timestamp: real, temperature: real, humidity: real): Object
  {
    var co2 := Co2Reading(baseDraw, variation);
    map["device_id" := Str(deviceId), "co2_ppm" := Num(co2 as real), "air_quality" := Str(QualityLabel(co2)),
        "location" := Str(location), "timestamp" := Num(timestamp),
        "temperature" := Num(temperature), "humidity" := Num(humidity)]
  }

  /** A generated payload passes the server's validation and is stored with
      its own device, location, label and reading. */
  lemma GeneratedPayloadAccepted(deviceId: string, location: string, baseDraw: int, variation: int,
                                 timestamp: real, temperature: real, humidity: real, now: int)
    ensures var data := GenerateTestData(deviceId, location, baseDraw, variation, timestamp, temperature, humidity);
      Server.FirstMissing(data, Server.RequiredFields).None? &&
      Server.Ingest(Some(data), now).Accepted? &&
      var p := Server.Ingest(Some(data), now).point;
      p.deviceId == Str(deviceId) && p.location == Str(location) &&
      p.airQuality == Str(QualityLabel(Co2Reading(baseDraw, variation))) &&
      p.co2 == Co2Reading(baseDraw, variation) as real &&
      p.temperature == Some(temperature) && p.humidity == Some(humidity)
  {
    var data := GenerateTestData(deviceId, location, baseDraw, variation, timestamp, temperature, humidity);
    Server.MissingFieldOrder(data);
    Server.IngestAcceptsExactly(Some(data), now);
    Server.IngestPoint(data, now);
  }

  // ---------------------------------------------------------------------
  // Counters
  // ---------------------------------------------------------------------

  /** The devices of the continuous test, each with its location. */
  const Devices: seq<(string, string)> := [("aircarto_test_1", "bureau"), ("aircarto_test_2", "salon"), ("aircarto_test_3", "cuisine")]

  function CountTrue(outcomes: seq<bool>): (n: nat)
    ensures n <= |outcomes|
  {
    if outcomes == [] then 0
    else CountTrue(outcomes[..|outcomes| - 1]) + (if outcomes[|outcomes| - 1] then 1 else 0)
  }

  /** The outcomes of the first `n` sends. */
  function Outcomes(sent: nat -> bool, n: nat): seq<bool>
  {
    seq(n, k requires 0 <= k < n => sent(k))
  }

  /** `run_continuous_test`: `rounds` passes of the time-bounded loop, each
      sending once per device; `sent(k)` is whether the k-th send succeeded.
      The total grows by exactly one per send and successes never exceed it. */
  method RunContinuousTest(rounds: nat, sent: nat -> bool) returns (successCount: nat, totalCount: nat)
    ensures totalCount == |Devices| * rounds
    ensures successCount == CountTrue(Outcomes(sent, totalCount))
    ensures successCount <= totalCount
  {
    successCount, totalCount := 0, 0;
    for round := 0 to rounds
      invariant totalCount == |Devices| * round
      invariant successCount == CountTrue(Outcomes(sent, totalCount))
    {
      for d := 0 to |Devices|
        invariant totalCount == |Devices| * round + d
        invariant successCount == CountTrue(Outcomes(sent, totalCount))
      {
        var ok := sent(totalCount);
        totalCount := totalCount + 1;
        assert Outcomes(sent, totalCount)[..totalCount - 1] == Outcomes(sent, totalCount - 1);
        if ok {
          successCount := successCount + 1;
        }
      }
    }
  }

  /** `f"stress_test_{i % 10}"`. */
  function StressDeviceId(i: nat): string
  {
    "stress_test_" + NatToString(i % 10)
  }

  /** Stress-test ids cycle through ten distinct names. */
  lemma StressDeviceIdsCycle(i: nat, j: nat)
    ensures StressDeviceId(i + 10) == StressDeviceId(i)
    ensures StressDeviceId(i) == StressDeviceId(j) <==> i % 10 == j % 10
  {
    if StressDeviceId(i) == StressDeviceId(j) {
      var prefix := "stress_test_";
      assert StressDeviceId(i)[|prefix|..] == NatToString(i % 10);
      assert StressDeviceId(j)[|prefix|..] == NatToString(j % 10);
      ParseNatToString(i % 10);
      ParseNatToString(j % 10);
    }
  }

  /** `success/num_requests*100` of the stress-test summary, `None` where the
      division raises ZeroDivisionError; otherwise a percentage. */
  function SuccessRate(success: nat, numRequests: nat): (rate: Option<real>)
    requires success <= numRequests
    ensures rate.None? <==> numRequests == 0
    ensures rate.Some? ==>
      rate.value * numRequests as real == success as real * 100.0 && 0.0 <= rate.value <= 100.0
  {
    if numRequests == 0 then None
    else
      var q := success as real / numRequests as real;
      assert q * numRequests as real == success as real;
      assert (1.0 - q) * numRequests as real == (numRequests - success) as real;
      Some(q * 100.0)
  }

  /** `stress_test(num_requests)`: the ids posted in order, the number of
      successful posts and the success percentage of the summary line, which
      is `None` for zero requests, where `success/num_requests` raises
      ZeroDivisionError. */
  method StressTest(numRequests: nat, sent: nat -> bool) returns (ids: seq<string>, success: nat, rate: Option<real>)
    ensures |ids| == numRequests
    ensures forall i :: 0 <= i < numRequests ==> ids[i] == StressDeviceId(i)
    ensures success == CountTrue(Outcomes(sent, numRequests)) && success <= numRequests
    ensures rate == SuccessRate(success, numRequests)
  {
    ids, success := [], 0;
    for i := 0 to numRequests
      invariant |ids| == i
      invariant forall j :: 0 <= j < i ==> ids[j] == StressDeviceId(j)
      invariant success == CountTrue(Outcomes(sent, i))
    {
      ids := ids + [StressDeviceId(i)];
      assert Outcomes(sent, i + 1)[..i] == Outcomes(sent, i);
      if sent(i) {
        success := success + 1;
      }
    }
    rate := SuccessRate(success, numRequests);
  }

  // ---------------------------------------------------------------------
  // Menu input
  // ---------------------------------------------------------------------

  /** `int(s) if s.isdigit() else default` on the stripped input. */
  function MenuNumber(input: string, default: nat): nat
  {
    var s := Strip(input);
    if IsDigits(s) then ParseNat(s) else default
  }

  const DefaultMinutes: nat := 5
  const DefaultRequests: nat := 100

  /** Input that is not a digit string (including empty input) gives the
      default; the decimal text of a number gives that number. */
  lemma MenuNumberSpec(input: string, default: nat, n: nat)
    ensures !IsDigits(Strip(input)) ==> MenuNumber(input, default) == default
    ensures MenuNumber(NatToString(n), default) == n
  {
    var s := NatToString(n);
    StripDigits(s);
    ParseNatToString(n);
  }

  lemma StripDigits(s: string)
    requires IsDigits(s)
    ensures Strip(s) == s
  {
    assert !IsSpace(s[0]);
    assert LStrip(s) == s;
    assert !IsSpace(s[|s| - 1]);
  }
}
