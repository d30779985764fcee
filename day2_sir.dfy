/** The alternative winter generator script: the same winter ranges and
    month table, but its own winter formula with smaller coefficients. */
module Day2Sir {
  import opened Numerics
  import opened SolarDataset
  import Day2Main

  const FeatureRanges: map<string, SeasonRanges> := map["winter" := SeasonRanges(
    Interval(300.0, 700.0), Interval(30.0, 70.0), Interval(1.0, 6.0),
    Interval(5.0, 20.0), Interval(10.0, 40.0))]

  const WinterMonthsDays: seq<MonthDays> :=
    [MonthDays("November", 30), MonthDays("December", 31), MonthDays("January", 31), MonthDays("February", 28)]

  /** The 0.18 winter variant. */
  function CalcKwhWinter(irradiance: real, humidity: real, windSpeed: real, ambientTemp: real,
                         tiltAngle: real): real {
    0.18 * irradiance - 0.03 * humidity + 0.015 * windSpeed + 0.08 * ambientTemp
    - 0.02 * Abs(tiltAngle - 30.0)
  }

  function WinterKwh(s: Sample): real {
    CalcKwhWinter(s.irradiance, s.humidity, s.windSpeed, s.ambientTemperature, s.tiltAngle)
  }

  /** Its tilt penalty is never positive and symmetric about 30 degrees. */
  lemma TiltTermShape(irr: real, hum: real, ws: real, at: real, tilt: real, d: real)
    ensures CalcKwhWinter(irr, hum, ws, at, tilt) <= CalcKwhWinter(irr, hum, ws, at, 30.0)
    ensures CalcKwhWinter(irr, hum, ws, at, 30.0 + d) == CalcKwhWinter(irr, hum, ws, at, 30.0 - d)
  {
  }

  /** The two winter variants are different formulas: on every winter sample
      this one predicts over 20 kWh less than the three-season script's. */
  lemma WinterVariantsDiffer(s: Sample)
    requires SampleWithin(s, Day2Main.WinterRanges)
    ensures WinterKwh(s) + 20.0 < Day2Main.WinterKwh(s)
  {
  }

  /** Same ranges and month table as the three-season script: 120 records
      from November to February (not the 31 + 31 + 28 = 90 a comment in the
      script expects). */
  lemma SameTablesAsThreeSeasonScript()
    ensures FeatureRanges["winter"] == Day2Main.WinterRanges
    ensures WinterMonthsDays == Day2Main.WinterMonthsDay
    ensures TotalDays(WinterMonthsDays) == 120 != 31 + 31 + 28
    ensures MonthLabels(WinterMonthsDays)[0] == "November" && MonthLabels(WinterMonthsDays)[119] == "February"
  {
    Day2Main.SeasonBoundaryLabels();
  }

  method GenerateWinterDataByMonth(featureRanges: map<string, SeasonRanges>, monthsDays: seq<MonthDays>,
                                   samples: seq<Sample>)
    returns (data: seq<EnergyRecord>)
    requires "winter" in featureRanges
    requires |samples| == TotalDays(monthsDays)
    requires forall k :: 0 <= k < |samples| ==> SampleWithin(samples[k], featureRanges["winter"])
    ensures |data| == TotalDays(monthsDays)
    ensures forall k :: 0 <= k < |data| ==>
              Stored(data[k], samples[k], WinterKwh(samples[k]), "winter", MonthLabels(monthsDays)[k])
              && RecordNear(data[k], featureRanges["winter"])
  {
    data := GenerateByMonth(WinterKwh, "winter", featureRanges["winter"], monthsDays, samples);
  }

  /** The script's run: generate with its own tables and report the number
      of data points. */
  method Run(samples: seq<Sample>) returns (dfWinter: seq<EnergyRecord>, total: nat)
    requires |samples| == 120
    requires forall k :: 0 <= k < |samples| ==> SampleWithin(samples[k], FeatureRanges["winter"])
    ensures total == |dfWinter| == 120
    ensures forall k :: 0 <= k < |dfWinter| ==> dfWinter[k].season == "winter"
    ensures dfWinter[0].month == "November" && dfWinter[119].month == "February"
  {
    SameTablesAsThreeSeasonScript();
    dfWinter := GenerateWinterDataByMonth(FeatureRanges, WinterMonthsDays, samples);
    Day2Main.SeasonColumn(dfWinter, samples, WinterKwh, "winter", WinterMonthsDays, "November", "February");
    total := |dfWinter|;
  }
}
