/** The stand-alone monsoon generator script: its own copy of the monsoon
    ranges, month table, formula and generator, and the length it reports. */
module Day2Monsoon {
  import opened Numerics
  import opened SolarDataset
  import Day2Main

  const FeatureRanges: map<string, SeasonRanges> := map["monsoon" := SeasonRanges(
    Interval(100.0, 600.0), Interval(70.0, 100.0), Interval(2.0, 8.0),
    Interval(20.0, 35.0), Interval(10.0, 40.0))]

  const MonsoonMonthsDays: seq<MonthDays> :=
    [MonthDays("July", 31), MonthDays("August", 31), MonthDays("September", 30), MonthDays("October", 31)]

  function CalcKwhMonsoon(irradiance: real, humidity: real, windSpeed: real, ambientTemp: real,
                          tiltAngle: real): real {
    0.15 * irradiance - 0.1 * humidity + 0.01 * windSpeed + 0.05 * ambientTemp
    - 0.04 * Abs(tiltAngle - 30.0)
  }

  function MonsoonKwh(s: Sample): real {
    CalcKwhMonsoon(s.irradiance, s.humidity, s.windSpeed, s.ambientTemperature, s.tiltAngle)
  }

  /** This copy agrees with the three-season script: same formula, same
      monsoon ranges, same month table, hence 123 records from July to
      October. */
  lemma SameAsThreeSeasonScript(irr: real, hum: real, ws: real, at: real, tilt: real)
    ensures CalcKwhMonsoon(irr, hum, ws, at, tilt) == Day2Main.CalcKwhMonsoon(irr, hum, ws, at, tilt)
    ensures FeatureRanges["monsoon"] == Day2Main.MonsoonRanges
    ensures MonsoonMonthsDays == Day2Main.MonsoonMonthsDays
    ensures TotalDays(MonsoonMonthsDays) == 123
    ensures MonthLabels(MonsoonMonthsDays)[0] == "July" && MonthLabels(MonsoonMonthsDays)[122] == "October"
  {
    Day2Main.SeasonBoundaryLabels();
  }

  method GenerateMonsoonDataByMonth(featureRanges: map<string, SeasonRanges>, monthsDays: seq<MonthDays>,
                                    samples: seq<Sample>)
    returns (data: seq<EnergyRecord>)
    requires "monsoon" in featureRanges
    requires |samples| == TotalDays(monthsDays)
    requires forall k :: 0 <= k < |samples| ==> SampleWithin(samples[k], featureRanges["monsoon"])
    ensures |data| == TotalDays(monthsDays)
    ensures forall k :: 0 <= k < |data| ==>
              Stored(data[k], samples[k], MonsoonKwh(samples[k]), "monsoon", MonthLabels(monthsDays)[k])
              && RecordNear(data[k], featureRanges["monsoon"])
  {
    data := GenerateByMonth(MonsoonKwh, "monsoon", featureRanges["monsoon"], monthsDays, samples);
  }

  /** The script's run: generate with its own tables and report the number
      of data points. */
  method Run(samples: seq<Sample>) returns (dfMonsoon: seq<EnergyRecord>, total: nat)
    requires |samples| == 123
    requires forall k :: 0 <= k < |samples| ==> SampleWithin(samples[k], FeatureRanges["monsoon"])
    ensures total == |dfMonsoon| == 123
    ensures forall k :: 0 <= k < |dfMonsoon| ==> dfMonsoon[k].season == "monsoon"
    ensures dfMonsoon[0].month == "July" && dfMonsoon[122].month == "October"
  {
    SameAsThreeSeasonScript(0.0, 0.0, 0.0, 0.0, 0.0);
    dfMonsoon := GenerateMonsoonDataByMonth(FeatureRanges, MonsoonMonthsDays, samples);
    Day2Main.SeasonColumn(dfMonsoon, samples, MonsoonKwh, "monsoon", MonsoonMonthsDays, "July", "October");
    total := |dfMonsoon|;
  }
}
