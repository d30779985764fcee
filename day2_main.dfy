/** The three-season solar dataset script: the feature ranges and month
    tables, the three `kwh` formulas, the three generators and the
    concatenation of their outputs. */
module Day2Main {
  import opened Numerics
  import opened SolarDataset

  const SummerRanges: SeasonRanges := SeasonRanges(
    Interval(600.0, 1000.0), Interval(10.0, 50.0), Interval(0.0, 5.0),
    Interval(10.0, 40.0), Interval(10.0, 40.0))

  const WinterRanges: SeasonRanges := SeasonRanges(
    Interval(300.0, 700.0), Interval(30.0, 70.0), Interval(1.0, 6.0),
    Interval(5.0, 20.0), Interval(10.0, 40.0))

  const MonsoonRanges: SeasonRanges := SeasonRanges(
    Interval(100.0, 600.0), Interval(70.0, 100.0), Interval(2.0, 8.0),
    Interval(20.0, 35.0), Interval(10.0, 40.0))

  /** `feature_ranges`, keyed by season name. */
  const FeatureRanges: map<string, SeasonRanges> :=
    map["summer" := SummerRanges, "winter" := WinterRanges, "monsoon" := MonsoonRanges]

  const SummerMonthsDay: seq<MonthDays> :=
    [MonthDays("March", 31), MonthDays("April", 30), MonthDays("May", 31), MonthDays("June", 30)]

  const WinterMonthsDay: seq<MonthDays> :=
    [MonthDays("November", 30), MonthDays("December", 31), MonthDays("January", 31), MonthDays("February", 28)]

  const MonsoonMonthsDays: seq<MonthDays> :=
    [MonthDays("July", 31), MonthDays("August", 31), MonthDays("September", 30), MonthDays("October", 31)]

  function CalKwhSummer(irr: real, hum: real, ws: real, at: real, tilt: real): real {
    0.25 * irr - 0.05 * hum + 0.02 * ws + 0.1 * at - 0.03 * Abs(tilt - 30.0)
  }

  function CalKwhWinter(irr: real, hum: real, win: real, temp: real, ang: real): real {
    0.25 * irr - 0.025 * hum + 0.02 * win + 0.1 * temp - 0.03 * Abs(ang - 30.0)
  }

  function CalcKwhMonsoon(irradiance: real, humidity: real, windSpeed: real, ambientTemp: real,
                          tiltAngle: real): real {
    0.15 * irradiance - 0.1 * humidity + 0.01 * windSpeed + 0.05 * ambientTemp
    - 0.04 * Abs(tiltAngle - 30.0)
  }

  /** In every season the tilt penalty is symmetric about 30 degrees and
      never positive, and the yield rises with irradiance and falls with
      humidity. */
  lemma SeasonFormulasShape(irr: real, hum: real, ws: real, at: real, tilt: real, d: real)
    ensures CalKwhSummer(irr, hum, ws, at, 30.0 + d) == CalKwhSummer(irr, hum, ws, at, 30.0 - d)
    ensures CalKwhWinter(irr, hum, ws, at, 30.0 + d) == CalKwhWinter(irr, hum, ws, at, 30.0 - d)
    ensures CalcKwhMonsoon(irr, hum, ws, at, 30.0 + d) == CalcKwhMonsoon(irr, hum, ws, at, 30.0 - d)
    ensures CalKwhSummer(irr, hum, ws, at, tilt) <= CalKwhSummer(irr, hum, ws, at, 30.0)
    ensures CalKwhWinter(irr, hum, ws, at, tilt) <= CalKwhWinter(irr, hum, ws, at, 30.0)
    ensures CalcKwhMonsoon(irr, hum, ws, at, tilt) <= CalcKwhMonsoon(irr, hum, ws, at, 30.0)
    ensures d > 0.0 ==> CalKwhSummer(irr + d, hum, ws, at, tilt) > CalKwhSummer(irr, hum, ws, at, tilt)
    ensures d > 0.0 ==> CalKwhWinter(irr + d, hum, ws, at, tilt) > CalKwhWinter(irr, hum, ws, at, tilt)
    ensures d > 0.0 ==> CalcKwhMonsoon(irr + d, hum, ws, at, tilt) > CalcKwhMonsoon(irr, hum, ws, at, tilt)
    ensures d > 0.0 ==> CalKwhSummer(irr, hum + d, ws, at, tilt) < CalKwhSummer(irr, hum, ws, at, tilt)
    ensures d > 0.0 ==> CalKwhWinter(irr, hum + d, ws, at, tilt) < CalKwhWinter(irr, hum, ws, at, tilt)
    ensures d > 0.0 ==> CalcKwhMonsoon(irr, hum + d, ws, at, tilt) < CalcKwhMonsoon(irr, hum, ws, at, tilt)
  {
  }

  /** Moving the tilt angle changes the penalty term by at most the move. */
  lemma TiltTermLipschitz(a: real, b: real)
    ensures Abs(Abs(a - 30.0) - Abs(b - 30.0)) <= Abs(a - b)
  {
  }

  /** Recomputing `kwh` from the stored (rounded) features agrees with the
      stored (rounded) `kwh` only up to a tolerance: half a cent for the
      final rounding plus half a cent per unit of coefficient. */
  lemma RecomputedKwhTolerance(s: Sample)
    ensures Abs(CalKwhSummer(Round2(s.irradiance), Round2(s.humidity), Round2(s.windSpeed),
                             Round2(s.ambientTemperature), Round2(s.tiltAngle))
                - Round2(CalKwhSummer(s.irradiance, s.humidity, s.windSpeed,
                                      s.ambientTemperature, s.tiltAngle))) <= 0.00725
    ensures Abs(CalKwhWinter(Round2(s.irradiance), Round2(s.humidity), Round2(s.windSpeed),
                             Round2(s.ambientTemperature), Round2(s.tiltAngle))
                - Round2(CalKwhWinter(s.irradiance, s.humidity, s.windSpeed,
                                      s.ambientTemperature, s.tiltAngle))) <= 0.007125
    ensures Abs(CalcKwhMonsoon(Round2(s.irradiance), Round2(s.humidity), Round2(s.windSpeed),
                               Round2(s.ambientTemperature), Round2(s.tiltAngle))
                - Round2(CalcKwhMonsoon(s.irradiance, s.humidity, s.windSpeed,
                                        s.ambientTemperature, s.tiltAngle))) <= 0.00675
  {
    TiltTermLipschitz(Round2(s.tiltAngle), s.tiltAngle);
  }

  /** The tolerance is needed: one summer day whose stored `kwh` is not what
      the stored features give when rounded again. Neither unrounded value
      sits on a half-cent tie, so the two roundings differ under both
      rounding rules (half-up and Python's half-even). */
  lemma RecomputedKwhCanDiffer()
    ensures 150.50 < CalKwhSummer(600.0155, 10.0, 0.0, 10.01, 30.0) < 150.505
    ensures 150.505 < CalKwhSummer(Round2(600.0155), Round2(10.0), Round2(0.0), Round2(10.01), Round2(30.0)) < 150.51
    ensures Round2(CalKwhSummer(Round2(600.0155), Round2(10.0), Round2(0.0), Round2(10.01), Round2(30.0)))
            != Round2(CalKwhSummer(600.0155, 10.0, 0.0, 10.01, 30.0))
  {
    assert (600.0155 * 100.0 + 0.5).Floor == 60002;
    Round2OnGrid(1000);
    Round2OnGrid(0);
    Round2OnGrid(1001);
    Round2OnGrid(3000);
    assert Round2(10.0) == 10.0 && Round2(0.0) == 0.0 && Round2(10.01) == 10.01 && Round2(30.0) == 30.0;
    assert CalKwhSummer(600.02, 10.0, 0.0, 10.01, 30.0) == 150.506;
    assert (150.506 * 100.0 + 0.5).Floor == 15051;
    assert CalKwhSummer(600.0155, 10.0, 0.0, 10.01, 30.0) == 150.504875;
    assert (150.504875 * 100.0 + 0.5).Floor == 15050;
  }

  function SummerKwh(s: Sample): real {
    CalKwhSummer(s.irradiance, s.humidity, s.windSpeed, s.ambientTemperature, s.tiltAngle)
  }

  function WinterKwh(s: Sample): real {
    CalKwhWinter(s.irradiance, s.humidity, s.windSpeed, s.ambientTemperature, s.tiltAngle)
  }

  function MonsoonKwh(s: Sample): real {
    CalcKwhMonsoon(s.irradiance, s.humidity, s.windSpeed, s.ambientTemperature, s.tiltAngle)
  }

  method GenerateSummerDataByMonth(featureRanges: map<string, SeasonRanges>, monthsDay: seq<MonthDays>,
                                   samples: seq<Sample>)
    returns (data: seq<EnergyRecord>)
    requires "summer" in featureRanges
    requires |samples| == TotalDays(monthsDay)
    requires forall k :: 0 <= k < |samples| ==> SampleWithin(samples[k], featureRanges["summer"])
    ensures |data| == TotalDays(monthsDay)
    ensures forall k :: 0 <= k < |data| ==>
              Stored(data[k], samples[k], SummerKwh(samples[k]), "summer", MonthLabels(monthsDay)[k])
              && RecordNear(data[k], featureRanges["summer"])
  {
    data := GenerateByMonth(SummerKwh, "summer", featureRanges["summer"], monthsDay, samples);
  }

  /** The winter generator (its name is spelled so in the script). */
  method GanerateWinterDataBtMonth(featureRange: map<string, SeasonRanges>, monthsDay: seq<MonthDays>,
                                   samples: seq<Sample>)
    returns (data: seq<EnergyRecord>)
    requires "winter" in featureRange
    requires |samples| == TotalDays(monthsDay)
    requires forall k :: 0 <= k < |samples| ==> SampleWithin(samples[k], featureRange["winter"])
    ensures |data| == TotalDays(monthsDay)
    ensures forall k :: 0 <= k < |data| ==>
              Stored(data[k], samples[k], WinterKwh(samples[k]), "winter", MonthLabels(monthsDay)[k])
              && RecordNear(data[k], featureRange["winter"])
  {
    data := GenerateByMonth(WinterKwh, "winter", featureRange["winter"], monthsDay, samples);
  }

  method GenerateMonsoonDataByMonth(featureRanges: map<string, SeasonRanges>, monthsDays: seq<MonthDays>,
                                    samples: seq<Sample>)
    returns (data: seq<EnergyRecord>)
    requires "monsoon" in featureRanges
    requires |samples| == TotalDays(monthsDays)
    requires forall k :: 0 <= k < |samples| ==> SampleWithin(samples[k], featureRanges["monsoon"])
    ensures |data| == TotalDays(monthsDays)
    ensures forall k :: 0 <= k < |data| ==>
              Stored(data[k], samples[k], MonsoonKwh(samples[k]), "monsoon", MonthLabels(monthsDays)[k])
              && RecordNear(data[k], featureRanges["monsoon"])
  {
    data := GenerateByMonth(MonsoonKwh, "monsoon", featureRanges["monsoon"], monthsDays, samples);
  }

  /** The three month tables ask for 122, 120 and 123 days, in month order. */
  lemma MonthTablesLayout()
    ensures TotalDays(SummerMonthsDay) == 122
    ensures TotalDays(WinterMonthsDay) == 120
    ensures TotalDays(MonsoonMonthsDays) == 123
    ensures MonthLabels(SummerMonthsDay) ==
              Repeat("March", 31) + Repeat("April", 30) + Repeat("May", 31) + Repeat("June", 30)
    ensures MonthLabels(WinterMonthsDay) ==
              Repeat("November", 30) + Repeat("December", 31) + Repeat("January", 31) + Repeat("February", 28)
    ensures MonthLabels(MonsoonMonthsDays) ==
              Repeat("July", 31) + Repeat("August", 31) + Repeat("September", 30) + Repeat("October", 31)
  {
    FourMonthLayout(SummerMonthsDay);
    FourMonthLayout(WinterMonthsDay);
    FourMonthLayout(MonsoonMonthsDays);
  }

  /** A four-month table, unfolded. */
  lemma FourMonthLayout(t: seq<MonthDays>)
    requires |t| == 4
    ensures TotalDays(t) == t[0].days + t[1].days + t[2].days + t[3].days
    ensures MonthLabels(t) == Repeat(t[0].month, t[0].days) + Repeat(t[1].month, t[1].days)
                              + Repeat(t[2].month, t[2].days) + Repeat(t[3].month, t[3].days)
  {
    assert t[..1][..0] == [];
    assert TotalDays(t[..1]) == t[0].days;
    assert MonthLabels(t[..1]) == Repeat(t[0].month, t[0].days);
    assert t[..2][..1] == t[..1];
    assert TotalDays(t[..2]) == TotalDays(t[..1]) + t[1].days;
    assert MonthLabels(t[..2]) == MonthLabels(t[..1]) + Repeat(t[1].month, t[1].days);
    assert t[..3][..2] == t[..2];
    assert TotalDays(t[..3]) == TotalDays(t[..2]) + t[2].days;
    assert MonthLabels(t[..3]) == MonthLabels(t[..2]) + Repeat(t[2].month, t[2].days);
    assert t[..3] == t[..|t| - 1];
  }

  /** The first and last month label of each season's table. */
  lemma SeasonBoundaryLabels()
    ensures TotalDays(SummerMonthsDay) == 122 && TotalDays(WinterMonthsDay) == 120
            && TotalDays(MonsoonMonthsDays) == 123
    ensures MonthLabels(SummerMonthsDay)[0] == "March" && MonthLabels(SummerMonthsDay)[121] == "June"
    ensures MonthLabels(WinterMonthsDay)[0] == "November" && MonthLabels(WinterMonthsDay)[119] == "February"
    ensures MonthLabels(MonsoonMonthsDays)[0] == "July" && MonthLabels(MonsoonMonthsDays)[122] == "October"
  {
    MonthLabelAt(SummerMonthsDay, 0, 0);
    MonthLabelAt(SummerMonthsDay, 3, 29);
    MonthLabelAt(WinterMonthsDay, 0, 0);
    MonthLabelAt(WinterMonthsDay, 3, 27);
    MonthLabelAt(MonsoonMonthsDays, 0, 0);
    MonthLabelAt(MonsoonMonthsDays, 3, 30);
    FourMonthLayout(SummerMonthsDay);
    FourMonthLayout(WinterMonthsDay);
    FourMonthLayout(MonsoonMonthsDays);
    assert SummerMonthsDay[..3] == SummerMonthsDay[..|SummerMonthsDay| - 1];
  }

  /** Each season's name looks up its own ranges. */
  lemma FeatureRangesLookup()
    ensures "summer" in FeatureRanges && FeatureRanges["summer"] == SummerRanges
    ensures "winter" in FeatureRanges && FeatureRanges["winter"] == WinterRanges
    ensures "monsoon" in FeatureRanges && FeatureRanges["monsoon"] == MonsoonRanges
  {
  }

  /** The script's three generator calls, each with the shared ranges and
      its own month table. */
  method GenerateSeasons(summerSamples: seq<Sample>, winterSamples: seq<Sample>, monsoonSamples: seq<Sample>)
    returns (dfSummer: seq<EnergyRecord>, dfWinter: seq<EnergyRecord>, dfMonsoon: seq<EnergyRecord>)
    requires |summerSamples| == 122 && |winterSamples| == 120 && |monsoonSamples| == 123
    requires forall k :: 0 <= k < 122 ==> SampleWithin(summerSamples[k], SummerRanges)
    requires forall k :: 0 <= k < 120 ==> SampleWithin(winterSamples[k], WinterRanges)
    requires forall k :: 0 <= k < 123 ==> SampleWithin(monsoonSamples[k], MonsoonRanges)
    ensures |dfSummer| == 122 && |dfWinter| == 120 && |dfMonsoon| == 123
    ensures forall k :: 0 <= k < 122 ==> dfSummer[k].season == "summer"
    ensures forall k :: 0 <= k < 120 ==> dfWinter[k].season == "winter"
    ensures forall k :: 0 <= k < 123 ==> dfMonsoon[k].season == "monsoon"
    ensures dfSummer[0].month == "March" && dfSummer[121].month == "June"
    ensures dfWinter[0].month == "November" && dfWinter[119].month == "February"
    ensures dfMonsoon[0].month == "July" && dfMonsoon[122].month == "October"
  {
    FeatureRangesLookup();
    SeasonBoundaryLabels();
    dfSummer := GenerateSummerDataByMonth(FeatureRanges, SummerMonthsDay, summerSamples);
    SeasonColumn(dfSummer, summerSamples, SummerKwh, "summer", SummerMonthsDay, "March", "June");
    dfWinter := GanerateWinterDataBtMonth(FeatureRanges, WinterMonthsDay, winterSamples);
    SeasonColumn(dfWinter, winterSamples, WinterKwh, "winter", WinterMonthsDay, "November", "February");
    dfMonsoon := GenerateMonsoonDataByMonth(FeatureRanges, MonsoonMonthsDays, monsoonSamples);
    SeasonColumn(dfMonsoon, monsoonSamples, MonsoonKwh, "monsoon", MonsoonMonthsDays, "July", "October");
  }

  /** The whole script's data step: generate the three seasons and
      concatenate them, summer rows first, then winter, then monsoon. */
  method BuildAllSeasons(summerSamples: seq<Sample>, winterSamples: seq<Sample>, monsoonSamples: seq<Sample>)
    returns (dfAllSeasons: seq<EnergyRecord>)
    requires |summerSamples| == 122 && |winterSamples| == 120 && |monsoonSamples| == 123
    requires forall k :: 0 <= k < 122 ==> SampleWithin(summerSamples[k], SummerRanges)
    requires forall k :: 0 <= k < 120 ==> SampleWithin(winterSamples[k], WinterRanges)
    requires forall k :: 0 <= k < 123 ==> SampleWithin(monsoonSamples[k], MonsoonRanges)
    ensures |dfAllSeasons| == 365
    ensures forall k :: 0 <= k < 122 ==> dfAllSeasons[k].season == "summer"
    ensures forall k :: 122 <= k < 242 ==> dfAllSeasons[k].season == "winter"
    ensures forall k :: 242 <= k < 365 ==> dfAllSeasons[k].season == "monsoon"
    ensures dfAllSeasons[0].month == "March" && dfAllSeasons[121].month == "June"
    ensures dfAllSeasons[122].month == "November" && dfAllSeasons[241].month == "February"
    ensures dfAllSeasons[242].month == "July" && dfAllSeasons[364].month == "October"
  {
    var dfSummer, dfWinter, dfMonsoon := GenerateSeasons(summerSamples, winterSamples, monsoonSamples);
    dfAllSeasons := dfSummer + dfWinter + dfMonsoon;
    ConcatenatedSeasons(dfSummer, dfWinter, dfMonsoon);
  }

  /** `pd.concat([df_summer, df_winter, df_monsoon], ignore_index=True)`:
      the rows of each season in turn, renumbered from 0. */
  lemma ConcatenatedSeasons(a: seq<EnergyRecord>, b: seq<EnergyRecord>, c: seq<EnergyRecord>)
    requires |a| == 122 && |b| == 120 && |c| == 123
    requires forall k :: 0 <= k < |a| ==> a[k].season == "summer"
    requires forall k :: 0 <= k < |b| ==> b[k].season == "winter"
    requires forall k :: 0 <= k < |c| ==> c[k].season == "monsoon"
    ensures |a + b + c| == 365
    ensures (a + b + c)[..122] == a && (a + b + c)[122..242] == b && (a + b + c)[242..] == c
    ensures forall k :: 0 <= k < 122 ==> (a + b + c)[k].season == "summer"
    ensures forall k :: 122 <= k < 242 ==> (a + b + c)[k].season == "winter"
    ensures forall k :: 242 <= k < 365 ==> (a + b + c)[k].season == "monsoon"
    ensures (a + b + c)[0] == a[0] && (a + b + c)[121] == a[121]
    ensures (a + b + c)[122] == b[0] && (a + b + c)[241] == b[119]
    ensures (a + b + c)[242] == c[0] && (a + b + c)[364] == c[122]
  {
    var r := a + b + c;
    assert forall k :: 0 <= k < 122 ==> r[k] == a[k];
    assert forall k :: 122 <= k < 242 ==> r[k] == b[k - 122];
    assert forall k :: 242 <= k < 365 ==> r[k] == c[k - 242];
  }

  /** The season and month columns of a generator's output. */
  lemma SeasonColumn(data: seq<EnergyRecord>, samples: seq<Sample>, kwhOf: Sample -> real,
                     season: string, months: seq<MonthDays>, first: string, last: string)
    requires |data| == |samples| == TotalDays(months) > 0
    requires forall k :: 0 <= k < |data| ==>
               Stored(data[k], samples[k], kwhOf(samples[k]), season, MonthLabels(months)[k])
    requires MonthLabels(months)[0] == first && MonthLabels(months)[|data| - 1] == last
    ensures forall k :: 0 <= k < |data| ==> data[k].season == season
    ensures data[0].month == first && data[|data| - 1].month == last
  {
    forall k | 0 <= k < |data|
      ensures data[k].season == season && data[k].month == MonthLabels(months)[k]
    {
      assert Stored(data[k], samples[k], kwhOf(samples[k]), season, MonthLabels(months)[k]);
    }
  }
}
