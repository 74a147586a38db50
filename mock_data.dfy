/**
 * The demo telemetry of `lib/mock-data.ts`: one random turbine reading for the
 * dashboard and a chart series whose length depends on the selected time
 * range. Every `Math.random()` draw, and every sine or cosine term, is a
 * parameter of the model.
 */
module MockData {
  import Text

  /** The reading the dashboard passes to its panels (`MockData` in the page). */
  datatype Telemetry = Telemetry(
    windSpeed: real, maxWindSpeed: real, minWindSpeed: real,
    power: real, maxPower: real, minPower: real,
    pitch: real, rotorRPM: real, genRPM: real,
    nacelTemp: real, gearOilTemp: real, genTemp: real, genBearTemp: real, environTemp: real,
    status: string)

  const Statuses: seq<string> := ["Active", "Idle", "Maintenance"]

  /** A draw of `Math.random()`. */
  predicate IsRandom(r: real) {
    0.0 <= r < 1.0
  }

  /** `Math.floor(r * 3)`, the index `generateMockData` picks its status with. */
  function StatusIndex(r: real): (k: nat)
    requires IsRandom(r)
    ensures k < |Statuses|
  {
    (r * 3.0).Floor
  }

  /**
   * `generateMockData()`, given its eleven `Math.random()` draws in the order the object
   * literal makes them: wind speed, power, pitch, rotor rpm, generator rpm, nacelle,
   * gear-oil, generator, generator-bearing and environment temperature, status.
   */
  function GenerateMockData(draws: seq<real>): (t: Telemetry)
    requires |draws| == 11 && forall i :: 0 <= i < 11 ==> IsRandom(draws[i])
    ensures t.maxWindSpeed == 18.0 && t.minWindSpeed == 2.0 && t.maxPower == 600.0 && t.minPower == 50.0
    ensures t.status in Statuses
    ensures 12.5 <= t.windSpeed < 17.5 && 450.0 <= t.power < 550.0
    ensures 25.0 <= t.pitch < 35.0 && 11.5 <= t.rotorRPM < 12.5
    ensures 35.0 <= t.nacelTemp < 45.0 && 45.0 <= t.gearOilTemp < 60.0 && 40.0 <= t.genTemp < 52.0
    ensures 1500.0 <= t.genRPM < 1600.0 && 38.0 <= t.genBearTemp < 46.0 && 15.0 <= t.environTemp < 25.0
  {
    assert IsRandom(draws[0]) && IsRandom(draws[1]) && IsRandom(draws[2]) && IsRandom(draws[3]) && IsRandom(draws[4]);
    assert IsRandom(draws[5]) && IsRandom(draws[6]) && IsRandom(draws[7]) && IsRandom(draws[8]);
    assert IsRandom(draws[9]) && IsRandom(draws[10]);
    Telemetry(
      windSpeed := 12.5 + draws[0] * 5.0,
      maxWindSpeed := 18.0,
      minWindSpeed := 2.0,
      power := 450.0 + draws[1] * 100.0,
      maxPower := 600.0,
      minPower := 50.0,
      pitch := 25.0 + draws[2] * 10.0,
      rotorRPM := 11.5 + draws[3] * 1.0,
      genRPM := 1500.0 + draws[4] * 100.0,
      nacelTemp := 35.0 + draws[5] * 10.0,
      gearOilTemp := 45.0 + draws[6] * 15.0,
      genTemp := 40.0 + draws[7] * 12.0,
      genBearTemp := 38.0 + draws[8] * 8.0,
      environTemp := 15.0 + draws[9] * 10.0,
      status := Statuses[StatusIndex(draws[10])])
  }

  /** The number of points for a time range. */
  function PointCount(timeRange: string): nat
  {
    if timeRange == "1h" then 60
    else if timeRange == "24h" then 24
    else if timeRange == "7d" then 7
    else 30
  }

  lemma PointCounts(timeRange: string)
    ensures timeRange == "1h" ==> PointCount(timeRange) == 60
    ensures timeRange == "24h" ==> PointCount(timeRange) == 24
    ensures timeRange == "7d" ==> PointCount(timeRange) == 7
    ensures timeRange !in {"1h", "24h", "7d"} ==> PointCount(timeRange) == 30
  {
  }

  const Days: seq<string> := ["Mon", "Tue", "Wed", "Thu", "Fri", "Sat", "Sun"]

  /** `formatTime(index, timeRange)`. */
  function FormatTime(index: nat, timeRange: string): string
  {
    if timeRange == "1h" || timeRange == "24h" then Text.NatToString(index) + ":00"
    else if timeRange == "7d" then Days[index % 7]
    else "Day " + Text.NatToString(index + 1)
  }

  /** For "7d" the seven points are labelled with the weekdays, Monday first, each once. */
  lemma WeekLabels()
    ensures PointCount("7d") == |Days|
    ensures forall i :: 0 <= i < |Days| ==> FormatTime(i, "7d") == Days[i]
    ensures forall i, j :: 0 <= i < j < |Days| ==> FormatTime(i, "7d") != FormatTime(j, "7d")
  {
    forall i, j | 0 <= i < j < |Days| ensures Days[i] != Days[j] {
      assert Days[i][0] != Days[j][0] || Days[i][1] != Days[j][1];
    }
  }

  /** Hourly labels and day labels tell their indices apart. */
  lemma {:induction false} LabelsDistinct(i: nat, j: nat, timeRange: string)
    requires i != j && timeRange != "7d"
    ensures FormatTime(i, timeRange) != FormatTime(j, timeRange)
  {
    var a, b := Text.NatToString(i), Text.NatToString(j);
    if timeRange == "1h" || timeRange == "24h" {
      if a + ":00" == b + ":00" {
        assert |a| == |b|;
        assert a == (a + ":00")[..|a|] == (b + ":00")[..|b|] == b;
        Text.NatToStringInjective(i, j);
      }
    } else {
      var c, d := Text.NatToString(i + 1), Text.NatToString(j + 1);
      if "Day " + c == "Day " + d {
        assert c == ("Day " + c)[4..] == ("Day " + d)[4..] == d;
        Text.NatToStringInjective(i + 1, j + 1);
      }
    }
  }

  /**
   * The terms that are not a function of the index alone: the two random draws, and the
   * caller's values of sin(2πi/n), cos(2πi/n) and sin(πi/n) for n points.
   */
  datatype Terms = Terms(sinFull: real, cosFull: real, sinHalf: real, windDraw: real, powerDraw: real)

  datatype ChartPoint = ChartPoint(
    time: string, windSpeed: real, power: real, pitch: real, rotorRPM: real,
    nacelTemp: real, gearOilTemp: real, genTemp: real)

  function Max(a: real, b: real): real
  {
    if a >= b then a else b
  }

  /** The entry the loop pushes for index `i`. */
  function PointAt(i: nat, timeRange: string, t: Terms): (p: ChartPoint)
    ensures p.power >= 50.0
  {
    ChartPoint(
      time := FormatTime(i, timeRange),
      windSpeed := 10.0 + t.sinFull * 5.0 + (t.windDraw - 0.5) * 2.0,
      power := Max(50.0, 400.0 + t.cosFull * 150.0 + (t.powerDraw - 0.5) * 50.0),
      pitch := 20.0 + t.sinHalf * 15.0,
      rotorRPM := 11.0 + t.cosFull * 1.5,
      nacelTemp := 35.0 + t.sinFull * 8.0,
      gearOilTemp := 45.0 + t.sinFull * 12.0,
      genTemp := 40.0 + t.cosFull * 10.0)
  }

  /** `generateChartData(timeRange)`; `terms(i)` supplies the non-index terms of entry `i`. */
  method GenerateChartData(timeRange: string, terms: nat -> Terms) returns (data: seq<ChartPoint>)
    ensures |data| == PointCount(timeRange)
    ensures forall i :: 0 <= i < |data| ==> data[i] == PointAt(i, timeRange, terms(i))
    ensures forall i :: 0 <= i < |data| ==> data[i].time == FormatTime(i, timeRange) && data[i].power >= 50.0
  {
    var points := PointCount(timeRange);
    data := [];
    for i := 0 to points
      invariant |data| == i
      invariant forall j :: 0 <= j < i ==> data[j] == PointAt(j, timeRange, terms(j))
    {
      data := data + [PointAt(i, timeRange, terms(i))];
    }
  }
}
