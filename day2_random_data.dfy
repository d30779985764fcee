/** The stand-alone summer generator script: its own copy of the summer
    ranges, month table, formula and generator. */
module Day2RandomData {
  import opened Numerics
  import opened SolarDataset
  import Day2Main

  const FeatureRanges: map<string, SeasonRanges> := map["summer" := SeasonRanges(
    Interval(600.0, 1000.0), Interval(10.0, 50.0), Interval(0.0, 5.0),
    Interval(10.0, 40.0), Interval(10.0, 40.0))]

  const SummerMonthsDay: seq<MonthDays> :=
    [MonthDays("March", 31), MonthDays("April", 30), MonthDays("May", 31), MonthDays("June", 30)]

  function CalKwhSummer(irr: real, hum: real, ws: real, at: real, tilt: real): real {
    0.25 * irr - 0.05 * hum + 0.02 * ws + 0.1 * at - 0.03 * Abs(tilt - 30.0)
  }

  function SummerKwh(s: Sample): real {
    CalKwhSummer(s.irradiance, s.humidity, s.windSpeed, s.ambientTemperature, s.tiltAngle)
  }

  /** This copy agrees with the three-season script: same formula, same
      summer ranges, same month table, hence 122 records from March to June. */
  lemma SameAsThreeSeasonScript(irr: real, hum: real, ws: real, at: real, tilt: real)
    ensures CalKwhSummer(irr, hum, ws, at, tilt) == Day2Main.CalKwhSummer(irr, hum, ws, at, tilt)
    ensures FeatureRanges["summer"] == Day2Main.SummerRanges
    ensures SummerMonthsDay == Day2Main.SummerMonthsDay
    ensures TotalDays(SummerMonthsDay) == 122
    ensures MonthLabels(SummerMonthsDay)[0] == "March" && MonthLabels(SummerMonthsDay)[121] == "June"
  {
    Day2Main.SeasonBoundaryLabels();
  }

  method GenerateSummerDataByMonth(featureRanges: map<string, SeasonRanges>, monthsDay: seq<MonthDays>,
                                   samples: seq<Sample>)
    returns (data: seq<EnergyRecord>)
    requires "summer" in featureRanges
    requires |samples| == TotalDays(monthsDay)
    requires forall k :: 0 <= k < |samples| ==> SampleWithin(samples[k], featureRanges["summer"])
    ensures |data| == TotalDays(monthsDay)
    ensures forall k :: 0 <= k < |data| ==>
              Stored(data[k], samples[k], SummerKwh(samples[k]), "summer", MonthLabels(monthsDay)[k])
              && RecordNear(data[k], featureRanges["summer"])
  {
    data := GenerateByMonth(SummerKwh, "summer", featureRanges["summer"], monthsDay, samples);
  }
}
