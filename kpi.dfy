/**
 * The KPI grid of the dashboard: four metric cards built from the current
 * telemetry reading, or a loading skeleton when there is none yet. A reading
 * is a number, so `x || d` falls back to `d` exactly when `x` is 0.
 */
module Kpi {
  import opened Values
  import opened MockData

  datatype Metric = Metric(name: string, value: real, unit: string, max: real, min: real, warning: bool)

  /** The skeleton of four placeholders, or the four metric cards. */
  datatype KpiView = Skeleton | Cards(metrics: seq<Metric>)

  /** `x || fallback` for a number. */
  function OrElse(x: real, fallback: real): real
  {
    if x != 0.0 then x else fallback
  }

  /**
   * `KPIGrid({ data })`. The pitch unit is the two characters the component's text holds,
   * U+00C2 U+00B0: a degree sign whose UTF-8 bytes were decoded once too often.
   */
  function KpiGrid(data: Option<Telemetry>): KpiView
  {
    match data
    case None => Skeleton
    case Some(d) =>
      Cards([
        Metric("Wind Speed", OrElse(d.windSpeed, 0.0), "m/s",
               OrElse(d.maxWindSpeed, 20.0), OrElse(d.minWindSpeed, 0.0), OrElse(d.windSpeed, 0.0) > 15.0),
        Metric("Power Output", OrElse(d.power, 0.0), "kW",
               OrElse(d.maxPower, 600.0), OrElse(d.minPower, 0.0), OrElse(d.power, 0.0) < 100.0),
        Metric("Pitch Angle", OrElse(d.pitch, 0.0), "\U{00C2}\U{00B0}", 90.0, 0.0, false),
        Metric("Rotor RPM", OrElse(d.rotorRPM, 0.0), "rpm", 12.5, 0.0, OrElse(d.rotorRPM, 0.0) > 12.0)
      ])
  }

  /** No reading yet: only the skeleton. */
  lemma KpiSkeleton()
    ensures KpiGrid(None) == Skeleton
  {
  }

  /**
   * With a reading: four cards in a fixed order, each showing its reading, with the
   * bounds falling back to 20 and 600 (maximum) or 0 (minimum) when the reading's bound
   * is 0, and the warning rules of the four cards.
   */
  lemma KpiCards(d: Telemetry)
    ensures KpiGrid(Some(d)).Cards? && |KpiGrid(Some(d)).metrics| == 4
    ensures var m := KpiGrid(Some(d)).metrics;
      && m[0].name == "Wind Speed" && m[1].name == "Power Output"
      && m[2].name == "Pitch Angle" && m[3].name == "Rotor RPM"
      && m[0].value == d.windSpeed && m[1].value == d.power && m[2].value == d.pitch && m[3].value == d.rotorRPM
      && m[0].max == (if d.maxWindSpeed == 0.0 then 20.0 else d.maxWindSpeed)
      && m[0].min == d.minWindSpeed
      && m[1].max == (if d.maxPower == 0.0 then 600.0 else d.maxPower)
      && m[1].min == d.minPower
      && (m[0].warning <==> d.windSpeed > 15.0)
      && (m[1].warning <==> d.power < 100.0)
      && !m[2].warning && m[2].min == 0.0 && m[2].max == 90.0
      && (m[3].warning <==> d.rotorRPM > 12.0) && m[3].min == 0.0 && m[3].max == 12.5
  {
  }

  /**
   * On a reading the mock generator produces, power never warns, the bounds are the
   * generator's constants, and wind warns only for the draws above 15 m/s.
   */
  lemma MockReadingWarnings(draws: seq<real>)
    requires |draws| == 11 && forall i :: 0 <= i < 11 ==> IsRandom(draws[i])
    ensures var m := KpiGrid(Some(GenerateMockData(draws))).metrics;
      && (m[0].warning <==> GenerateMockData(draws).windSpeed > 15.0)
      && !m[1].warning
      && m[0].max == 18.0 && m[0].min == 2.0 && m[1].max == 600.0 && m[1].min == 50.0
  {
    var t := GenerateMockData(draws);
    KpiCards(t);
  }
}
