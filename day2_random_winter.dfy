/** The stand-alone winter generator script: its own copy of the winter
    ranges, month table, the 0.25 winter formula and generator. */
module Day2RandomWinter {
  import opened Numerics
  import opened SolarDataset
  import Day2Main

  const FeatureRange: map<string, SeasonRanges> := map["winter" := SeasonRanges(
    Interval(300.0, 700.0), Interval(30.0, 70.0), Interval(1.0, 6.0),
    Interval(5.0, 20.0), Interval(10.0, 40.0))]

  const WinterMonthsDay: seq<MonthDays> :=
    [MonthDays("November", 30), MonthDays("December", 31), MonthDays("January", 31), MonthDays("February", 28)]

  function CalKwhWinter(irr: real, hum: real, win: real, temp: real, ang: real): real {
    0.25 * irr - 0.025 * hum + 0.02 * win + 0.1 * temp - 0.03 * Abs(ang - 30.0)
  }

  function WinterKwh(s: Sample): real {
    CalKwhWinter(s.irradiance, s.humidity, s.windSpeed, s.ambientTemperature, s.tiltAngle)
  }

  /** This copy agrees with the three-season script: same formula, same
      winter ranges, same month table, hence 120 records from November to
      February. */
  lemma SameAsThreeSeasonScript(irr: real, hum: real, win: real, temp: real, ang: real)
    ensures CalKwhWinter(irr, hum, win, temp, ang) == Day2Main.CalKwhWinter(irr, hum, win, temp, ang)
    ensures FeatureRange["winter"] == Day2Main.WinterRanges
    ensures WinterMonthsDay == Day2Main.WinterMonthsDay
    ensures TotalDays(WinterMonthsDay) == 120
    ensures MonthLabels(WinterMonthsDay)[0] == "November" && MonthLabels(WinterMonthsDay)[119] == "February"
  {
    Day2Main.SeasonBoundaryLabels();
  }

  /** The winter generator (its name is spelled so in the script). */
  method GanerateWinterDataBtMonth(featureRange: map<string, SeasonRanges>, monthsDay: seq<MonthDays>,
                                   samples: seq<Sample>)
    returns (data: seq<EnergyRecord>)
    requires "winter" in featureRange
    requires |samples| == TotalDays(monthsDay)
    requires forall k :: 0 <= k < |samples| ==> SampleWithin(samples[k], featureRange["winter"])
    ensures |data| == TotalDays(monthsDay)
    ensures forall k :: 0 <= k < |data| ==>
              Stored(data[k], samples[k], WinterKwh(samples[k]), "winter", MonthLabels(monthsDay)[k])
              && RecordNear(data[k], featureRange["winter"])
  {
    data := GenerateByMonth(WinterKwh, "winter", featureRange["winter"], monthsDay, samples);
  }
}
