/** The shape shared by every seasonal solar-data generator: for each month
    of a month-to-days table, in table order, one record per day holding five
    sampled features rounded to cents, a season-specific `kwh` computed from
    the unrounded features and then rounded, the season label and the month
    label. The uniform draws are the `samples` parameter, one per record. */
module SolarDataset {
  import opened Numerics

  /** A `(low, high)` pair passed to `np.random.uniform`. */
  datatype Interval = Interval(lo: real, hi: real)

  datatype SeasonRanges = SeasonRanges(
    irradiance: Interval, humidity: Interval, windSpeed: Interval,
    ambientTemperature: Interval, tiltAngle: Interval)

  /** One day's five draws, in the order the generators draw them. */
  datatype Sample = Sample(
    irradiance: real, humidity: real, windSpeed: real,
    ambientTemperature: real, tiltAngle: real)

  /** One `months_day` item. */
  datatype MonthDays = MonthDays(month: string, days: nat)

  datatype EnergyRecord = EnergyRecord(
    irradiance: real, humidity: real, windSpeed: real,
    ambientTemperature: real, tiltAngle: real,
    kwh: real, season: string, month: string)

  predicate InInterval(x: real, i: Interval) {
    i.lo <= x <= i.hi
  }

  predicate SampleWithin(s: Sample, r: SeasonRanges) {
    InInterval(s.irradiance, r.irradiance) && InInterval(s.humidity, r.humidity)
    && InInterval(s.windSpeed, r.windSpeed)
    && InInterval(s.ambientTemperature, r.ambientTemperature)
    && InInterval(s.tiltAngle, r.tiltAngle)
  }

  /** Within the interval widened by the cent-rounding tolerance. */
  predicate NearInterval(x: real, i: Interval) {
    i.lo - 0.005 < x <= i.hi + 0.005
  }

  predicate RecordNear(rec: EnergyRecord, r: SeasonRanges) {
    NearInterval(rec.irradiance, r.irradiance) && NearInterval(rec.humidity, r.humidity)
    && NearInterval(rec.windSpeed, r.windSpeed)
    && NearInterval(rec.ambientTemperature, r.ambientTemperature)
    && NearInterval(rec.tiltAngle, r.tiltAngle)
  }

  /** The dictionary appended for one day: every feature and `kwh` rounded to
      two places, `kwh` from the unrounded features. */
  predicate Stored(rec: EnergyRecord, s: Sample, kwh: real, season: string, month: string) {
    rec == EnergyRecord(Round2(s.irradiance), Round2(s.humidity), Round2(s.windSpeed),
                        Round2(s.ambientTemperature), Round2(s.tiltAngle),
                        Round2(kwh), season, month)
  }

  /** A stored record stays within its season's intervals up to rounding,
      and its `kwh` within rounding of the formula. */
  lemma StoredNear(rec: EnergyRecord, s: Sample, kwh: real, season: string, month: string, r: SeasonRanges)
    requires Stored(rec, s, kwh, season, month)
    requires SampleWithin(s, r)
    ensures RecordNear(rec, r)
    ensures Abs(rec.kwh - kwh) <= 0.005
  {
  }

  /** The number of records the table asks for: the sum of its day counts. */
  function TotalDays(months: seq<MonthDays>): nat {
    if |months| == 0 then 0 else TotalDays(months[..|months| - 1]) + months[|months| - 1].days
  }

  function Repeat(x: string, n: nat): (r: seq<string>)
    ensures |r| == n
    ensures forall i :: 0 <= i < n ==> r[i] == x
  {
    if n == 0 then [] else Repeat(x, n - 1) + [x]
  }

  /** The month column of the output: each month's name repeated for its day
      count, months in table order. */
  function MonthLabels(months: seq<MonthDays>): (labels: seq<string>)
    ensures |labels| == TotalDays(months)
  {
    if |months| == 0 then []
    else MonthLabels(months[..|months| - 1]) + Repeat(months[|months| - 1].month, months[|months| - 1].days)
  }

  /** The labels of a leading part of the table are a prefix of all labels. */
  lemma {:induction false} MonthLabelsPrefix(months: seq<MonthDays>, j: nat)
    requires j <= |months|
    ensures TotalDays(months[..j]) <= TotalDays(months)
    ensures MonthLabels(months)[..TotalDays(months[..j])] == MonthLabels(months[..j])
  {
    if j == |months| {
      assert months[..j] == months;
    } else {
      var init := months[..|months| - 1];
      MonthLabelsPrefix(init, j);
      assert init[..j] == months[..j];
    }
  }

  /** Extending a leading part of the table by one month appends that
      month's block of labels. */
  lemma MonthLabelsSnoc(months: seq<MonthDays>, m: nat)
    requires m < |months|
    ensures TotalDays(months[..m + 1]) == TotalDays(months[..m]) + months[m].days
    ensures MonthLabels(months[..m + 1]) == MonthLabels(months[..m]) + Repeat(months[m].month, months[m].days)
  {
    var pre := months[..m + 1];
    assert pre[..|pre| - 1] == months[..m];
    assert pre[|pre| - 1] == months[m];
  }

  /** Day `d` of month number `m` lands at position TotalDays(months[..m]) + d
      and carries that month's name. */
  lemma MonthLabelAt(months: seq<MonthDays>, m: nat, d: nat)
    requires m < |months| && d < months[m].days
    ensures TotalDays(months[..m]) + d < TotalDays(months)
    ensures MonthLabels(months)[TotalDays(months[..m]) + d] == months[m].month
  {
    MonthLabelsSnoc(months, m);
    MonthLabelsPrefix(months, m + 1);
    var all := MonthLabels(months);
    var pre := MonthLabels(months[..m + 1]);
    var block := Repeat(months[m].month, months[m].days);
    var i := TotalDays(months[..m]) + d;
    assert pre == MonthLabels(months[..m]) + block;
    assert pre[i] == block[d];
    assert all[..|pre|] == pre;
    assert all[i] == pre[i];
  }

  /** The generator loop shared by all seasons: for each month, for each of
      its days, take the next sample, compute `kwh`, and append the rounded
      record. */
  method GenerateByMonth(kwhOf: Sample -> real, season: string, ranges: SeasonRanges,
                         months: seq<MonthDays>, samples: seq<Sample>)
    returns (data: seq<EnergyRecord>)
    requires |samples| == TotalDays(months)
    requires forall k :: 0 <= k < |samples| ==> SampleWithin(samples[k], ranges)
    ensures |data| == TotalDays(months)
    ensures forall k :: 0 <= k < |data| ==>
              Stored(data[k], samples[k], kwhOf(samples[k]), season, MonthLabels(months)[k])
    ensures forall k :: 0 <= k < |data| ==> RecordNear(data[k], ranges)
  {
    data := [];
    var m := 0;
    while m < |months|
      invariant 0 <= m <= |months|
      invariant |data| == TotalDays(months[..m]) <= TotalDays(months)
      invariant forall k :: 0 <= k < |data| ==>
                  Stored(data[k], samples[k], kwhOf(samples[k]), season, MonthLabels(months)[k])
                  && RecordNear(data[k], ranges)
    {
      MonthLabelsPrefix(months, m + 1);
      assert months[..m + 1][..m] == months[..m];
      var month := months[m].month;
      var days := months[m].days;
      var d := 0;
      while d < days
        invariant 0 <= d <= days
        invariant |data| == TotalDays(months[..m]) + d <= TotalDays(months)
        invariant forall k :: 0 <= k < |data| ==>
                    Stored(data[k], samples[k], kwhOf(samples[k]), season, MonthLabels(months)[k])
                    && RecordNear(data[k], ranges)
      {
        MonthLabelAt(months, m, d);
        var s := samples[|data|];
        var kwh := kwhOf(s);
        var rec := EnergyRecord(Round2(s.irradiance), Round2(s.humidity), Round2(s.windSpeed),
                                Round2(s.ambientTemperature), Round2(s.tiltAngle),
                                Round2(kwh), season, month);
        StoredNear(rec, s, kwh, season, month, ranges);
        data := data + [rec];
        d := d + 1;
      }
      m := m + 1;
    }
    assert months[..m] == months;
  }
}
