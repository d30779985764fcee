/** The Streamlit energy-consumption tracker backed by MongoDB: the appliance
    energy calculator, its cost figures, the saving tips, the per-appliance
    breakdown chart data, and the history summary and trend-chart window. */
module LightCalUi {
  import opened Wrappers
  import opened Numerics

  /** One `appliance: count` pair of the dict handed to `calculate_energy`,
      in the dict's insertion order. */
  datatype Item = Item(name: string, count: int)

  /** kWh per day for one unit of each appliance. */
  const EnergyRates: map<string, real> := map[
    "light" := 0.2,
    "fans" := 0.2,
    "tv" := 0.3,
    "ac" := 3.0,
    "fridge" := 3.1,
    "washing_machine" := 2.8
  ]

  /** An item the loop would look up and fail on with a KeyError. */
  predicate Missing(item: Item) {
    item.count > 0 && item.name !in EnergyRates
  }

  /** What one item adds: `count * rate` when the count is positive. */
  function Contribution(item: Item): real {
    if item.count > 0 && item.name in EnergyRates then item.count as real * EnergyRates[item.name] else 0.0
  }

  /** The unrounded total that `calculate_energy` accumulates. */
  function EnergySum(items: seq<Item>): (r: real)
    ensures r >= 0.0
  {
    if |items| == 0 then 0.0 else EnergySum(items[..|items| - 1]) + Contribution(items[|items| - 1])
  }

  /** `calculate_energy`: accumulate `count * rate` over the positive counts,
      raising KeyError on the first positive count with no rate, and round
      the total to 2 decimals. */
  method CalculateEnergy(appliances: seq<Item>) returns (r: Result<real, string>)
    ensures r.Err? <==> exists j :: 0 <= j < |appliances| && Missing(appliances[j])
    ensures r.Err? ==> exists j :: 0 <= j < |appliances| && Missing(appliances[j]) && appliances[j].name == r.error
                                   && forall k :: 0 <= k < j ==> !Missing(appliances[k])
    ensures r.Ok? ==> r.value == Round2(EnergySum(appliances))
  {
    var total := 0.0;
    var i := 0;
    while i < |appliances|
      invariant 0 <= i <= |appliances|
      invariant total == EnergySum(appliances[..i])
      invariant forall k :: 0 <= k < i ==> !Missing(appliances[k])
    {
      var item := appliances[i];
      if item.count > 0 {
        if item.name !in EnergyRates {
          return Err(item.name);
        }
        total := total + item.count as real * EnergyRates[item.name];
      }
      assert appliances[..i + 1][..i] == appliances[..i];
      i := i + 1;
    }
    assert appliances[..i] == appliances;
    r := Ok(Round2(total));
  }

  /** Pointwise larger counts never give a smaller total. */
  lemma {:induction false} EnergySumMonotone(a: seq<Item>, b: seq<Item>)
    requires |a| == |b|
    requires forall j :: 0 <= j < |a| ==> a[j].name == b[j].name && a[j].count <= b[j].count
    ensures EnergySum(a) <= EnergySum(b)
  {
    if |a| > 0 {
      var n := |a| - 1;
      EnergySumMonotone(a[..n], b[..n]);
      if a[n].count > 0 && a[n].name in EnergyRates {
        assert Contribution(a[n]) == a[n].count as real * EnergyRates[a[n].name];
        assert Contribution(b[n]) == b[n].count as real * EnergyRates[a[n].name];
      }
    }
  }

  /** Counts that are zero or negative contribute nothing. */
  lemma {:induction false} EnergySumIgnoresNonPositive(a: seq<Item>, b: seq<Item>)
    requires |a| == |b|
    requires forall j :: 0 <= j < |a| ==> a[j].name == b[j].name && (a[j].count == b[j].count || (a[j].count <= 0 && b[j].count <= 0))
    ensures EnergySum(a) == EnergySum(b)
  {
    if |a| > 0 {
      EnergySumIgnoresNonPositive(a[..|a| - 1], b[..|b| - 1]);
    }
  }

  /** The dict built from the form: the AC, fridge and washing-machine counts
      are replaced by 0 when the matching "has" answer is "No". */
  function ApplianceDict(lights: int, fans: int, tv: int, hasAc: bool, ac: int,
                         hasFridge: bool, fridge: int, hasWm: bool, washingMachine: int): (d: seq<Item>)
    ensures |d| == 6
    ensures forall j :: 0 <= j < 6 ==> d[j].name in EnergyRates
    ensures !hasAc ==> d[3].count == 0
    ensures !hasFridge ==> d[4].count == 0
    ensures !hasWm ==> d[5].count == 0
  {
    [Item("light", lights), Item("fans", fans), Item("tv", tv),
     Item("ac", if hasAc then ac else 0),
     Item("fridge", if hasFridge then fridge else 0),
     Item("washing_machine", if hasWm then washingMachine else 0)]
  }

  function Positive(c: int): real {
    if c > 0 then c as real else 0.0
  }

  /** Over the form's dict the total is the weighted sum of the positive counts. */
  lemma ApplianceDictEnergy(lights: int, fans: int, tv: int, ac: int, fridge: int, washingMachine: int)
    ensures EnergySum(ApplianceDict(lights, fans, tv, true, ac, true, fridge, true, washingMachine))
         == Positive(lights) * 0.2 + Positive(fans) * 0.2 + Positive(tv) * 0.3
          + Positive(ac) * 3.0 + Positive(fridge) * 3.1 + Positive(washingMachine) * 2.8
  {
    var d := ApplianceDict(lights, fans, tv, true, ac, true, fridge, true, washingMachine);
    var d1 := [d[0]];
    var d2 := d1 + [d[1]];
    var d3 := d2 + [d[2]];
    var d4 := d3 + [d[3]];
    var d5 := d4 + [d[4]];
    assert d == d5 + [d[5]];
    EnergySumAppend([], d[0]);
    assert [] + [d[0]] == d1;
    EnergySumAppend(d1, d[1]);
    EnergySumAppend(d2, d[2]);
    EnergySumAppend(d3, d[3]);
    EnergySumAppend(d4, d[4]);
    EnergySumAppend(d5, d[5]);
    assert Contribution(d[0]) == Positive(lights) * 0.2;
    assert Contribution(d[1]) == Positive(fans) * 0.2;
    assert Contribution(d[2]) == Positive(tv) * 0.3;
    assert Contribution(d[3]) == Positive(ac) * 3.0;
    assert Contribution(d[4]) == Positive(fridge) * 3.1;
    assert Contribution(d[5]) == Positive(washingMachine) * 2.8;
  }

  lemma EnergySumAppend(items: seq<Item>, x: Item)
    ensures EnergySum(items + [x]) == EnergySum(items) + Contribution(x)
  {
    assert (items + [x])[..|items|] == items;
  }

  /** Daily, monthly and yearly cost in rupees. */
  datatype Costs = Costs(daily: real, monthly: real, yearly: real)

  const RatePerUnit: real := 8.0

  /** The cost figures: daily is the energy at 8 per kWh rounded to cents;
      monthly and yearly are taken from the rounded daily figure, so they are
      exact multiples of it and carry its rounding error 30 and 365 times. */
  function CostsFor(totalEnergy: real): (c: Costs)
    ensures RatePerUnit * totalEnergy - 0.005 < c.daily <= RatePerUnit * totalEnergy + 0.005
    ensures c.monthly == 30.0 * c.daily
    ensures c.yearly == 365.0 * c.daily
    ensures Abs(c.monthly - 30.0 * RatePerUnit * totalEnergy) <= 0.15
  {
    var daily := Round2(totalEnergy * RatePerUnit);
    Round2OfWholeMultiple(totalEnergy * RatePerUnit, 30);
    Round2OfWholeMultiple(totalEnergy * RatePerUnit, 365);
    Costs(daily, Round2(daily * 30.0), Round2(daily * 365.0))
  }

  const HighUsageTips: seq<string> := [
    "💡 Replace traditional bulbs with LED lights to save up to 75% energy",
    "❄️ Use inverter AC for better efficiency",
    "🌡️ Set AC temperature to 24°C for optimal energy saving",
    "🔌 Unplug electronics when not in use",
    "🌙 Use timer settings for appliances",
    "🪟 Improve home insulation to reduce AC usage"
  ]

  const GoodUsageTips: seq<string> := [
    "✅ Good energy management! Consider solar panels for further savings",
    "🌱 Use natural light during daytime",
    "💨 Use fans along with AC to circulate air better"
  ]

  const ExcellentUsageTips: seq<string> := [
    "🏆 Excellent energy management!",
    "🌟 You're an eco-friendly household",
    "🌱 Consider sharing your energy-saving tips with neighbors"
  ]

  /** `get_energy_tips`: pick one of three tip lists by consumption band. */
  method GetEnergyTips(energyConsumption: real) returns (tips: seq<string>)
    ensures energyConsumption > 15.0 ==> tips == HighUsageTips
    ensures 10.0 < energyConsumption <= 15.0 ==> tips == GoodUsageTips
    ensures energyConsumption <= 10.0 ==> tips == ExcellentUsageTips
    ensures |tips| == 6 <==> energyConsumption > 15.0
    ensures |tips| > 0
  {
    tips := [];
    if energyConsumption > 15.0 {
      tips := tips + HighUsageTips;
    } else if energyConsumption > 10.0 {
      tips := tips + GoodUsageTips;
    } else {
      tips := tips + ExcellentUsageTips;
    }
  }

  const ApplianceNames: seq<string> := ["Lights", "Fans", "TVs", "AC", "Refrigerator", "Washing Machine"]

  /** The per-appliance energies plotted in the breakdown chart; they use the
      counts as typed, not the dict's gated ones. */
  function BreakdownEnergy(lights: int, fans: int, tv: int, ac: int, fridge: int, washingMachine: int): seq<real>
  {
    [lights as real * 0.2, fans as real * 0.2, tv as real * 0.3,
     ac as real * 3.0, fridge as real * 3.1, washingMachine as real * 2.8]
  }

  /** `non_zero_indices`: the positions whose energy is positive, in order. */
  function NonZeroIndices(values: seq<real>): (ix: seq<nat>)
    ensures forall j :: 0 <= j < |ix| ==> ix[j] < |values| && values[ix[j]] > 0.0
  {
    if |values| == 0 then []
    else
      var n := |values| - 1;
      NonZeroIndices(values[..n]) + (if values[n] > 0.0 then [n] else [])
  }

  /** Every position with positive energy is kept. */
  lemma {:induction false} NonZeroIndicesComplete(values: seq<real>, i: nat)
    requires i < |values| && values[i] > 0.0
    ensures i in NonZeroIndices(values)
  {
    var n := |values| - 1;
    if i < n {
      NonZeroIndicesComplete(values[..n], i);
    }
  }

  predicate StrictlyIncreasing(ix: seq<nat>) {
    forall j, k :: 0 <= j < k < |ix| ==> ix[j] < ix[k]
  }

  /** The kept positions are in their original order. */
  lemma {:induction false} NonZeroIndicesIncreasing(values: seq<real>)
    ensures StrictlyIncreasing(NonZeroIndices(values))
  {
    if |values| > 0 {
      var n := |values| - 1;
      NonZeroIndicesIncreasing(values[..n]);
      var ix0 := NonZeroIndices(values[..n]);
      assert forall j :: 0 <= j < |ix0| ==> ix0[j] < n;
      var ix := NonZeroIndices(values);
      assert ix == ix0 + (if values[n] > 0.0 then [n] else []);
      forall j, k | 0 <= j < k < |ix|
        ensures ix[j] < ix[k]
      {
        assert ix[j] == ix0[j];
        if k < |ix0| {
          assert ix[k] == ix0[k];
          assert ix0[j] < ix0[k];
        } else {
          assert ix[k] == n;
        }
      }
    }
  }

  function Pick<T>(s: seq<T>, ix: seq<nat>): (r: seq<T>)
    requires forall j :: 0 <= j < |ix| ==> ix[j] < |s|
    ensures |r| == |ix|
    ensures forall j :: 0 <= j < |ix| ==> r[j] == s[ix[j]]
  {
    seq(|ix|, j requires 0 <= j < |ix| => s[ix[j]])
  }

  /** The filtered chart data: names and energies of the appliances that use
      energy, aligned, in their original order. */
  function FilteredBreakdown(names: seq<string>, values: seq<real>): (r: (seq<string>, seq<real>))
    requires |names| == |values|
    ensures |r.0| == |r.1|
    ensures forall j :: 0 <= j < |r.1| ==> r.1[j] > 0.0
    ensures forall j :: 0 <= j < |r.1| ==> exists i :: 0 <= i < |values| && r.0[j] == names[i] && r.1[j] == values[i]
    ensures |r.1| == |NonZeroIndices(values)|
    ensures forall j :: 0 <= j < |r.1| ==>
              r.0[j] == names[NonZeroIndices(values)[j]] && r.1[j] == values[NonZeroIndices(values)[j]]
  {
    var ix := NonZeroIndices(values);
    (Pick(names, ix), Pick(values, ix))
  }

  /** Dropping the zero entries of a non-negative list does not change its sum. */
  lemma {:induction false} FilteredSum(values: seq<real>)
    requires forall i :: 0 <= i < |values| ==> values[i] >= 0.0
    ensures Sum(Pick(values, NonZeroIndices(values))) == Sum(values)
  {
    if |values| > 0 {
      var n := |values| - 1;
      FilteredSum(values[..n]);
      FilteredSumStep(values);
    }
  }

  lemma FilteredSumStep(values: seq<real>)
    requires |values| > 0
    ensures var n := |values| - 1;
            Sum(Pick(values, NonZeroIndices(values)))
            == Sum(Pick(values[..n], NonZeroIndices(values[..n]))) + (if values[n] > 0.0 then values[n] else 0.0)
  {
    var n := |values| - 1;
    var ix0 := NonZeroIndices(values[..n]);
    assert NonZeroIndices(values) == ix0 + (if values[n] > 0.0 then [n] else []);
    PickSumStep(values, ix0, values[n] > 0.0);
  }

  /** Picking one more position at the end adds its value to the sum. */
  lemma PickSumStep(values: seq<real>, ix0: seq<nat>, keep: bool)
    requires |values| > 0
    requires forall j :: 0 <= j < |ix0| ==> ix0[j] < |values| - 1
    ensures var n := |values| - 1;
            Sum(Pick(values, ix0 + (if keep then [n] else [])))
            == Sum(Pick(values[..n], ix0)) + (if keep then values[n] else 0.0)
  {
    var n := |values| - 1;
    var tail: seq<nat> := if keep then [n] else [];
    PickSplit(values, values[..n], ix0, tail);
    SumAppendTail(Pick(values[..n], ix0), Pick(values, tail));
  }

  /** Picking from the whole list by positions that lie in a prefix. */
  lemma PickSplit(values: seq<real>, init: seq<real>, a: seq<nat>, b: seq<nat>)
    requires |init| <= |values| && init == values[..|init|]
    requires forall j :: 0 <= j < |a| ==> a[j] < |init|
    requires forall j :: 0 <= j < |b| ==> b[j] < |values|
    ensures Pick(values, a + b) == Pick(init, a) + Pick(values, b)
  {
    PickOfPrefix(values, init, a);
    PickAppend(values, a, b);
  }

  lemma PickAppend<T>(s: seq<T>, a: seq<nat>, b: seq<nat>)
    requires forall j :: 0 <= j < |a| ==> a[j] < |s|
    requires forall j :: 0 <= j < |b| ==> b[j] < |s|
    ensures Pick(s, a + b) == Pick(s, a) + Pick(s, b)
  {
  }

  lemma PickOfPrefix<T>(s: seq<T>, t: seq<T>, a: seq<nat>)
    requires |t| <= |s| && t == s[..|t|]
    requires forall j :: 0 <= j < |a| ==> a[j] < |t|
    ensures Pick(s, a) == Pick(t, a)
  {
  }

  /** The chart's bars add up to the dict's total exactly when no count was
      typed for an appliance answered "No". */
  lemma BreakdownMatchesTotal(lights: nat, fans: nat, tv: nat, hasAc: bool, ac: nat,
                              hasFridge: bool, fridge: nat, hasWm: bool, washingMachine: nat)
    ensures var values := BreakdownEnergy(lights, fans, tv, ac, fridge, washingMachine);
            var total := EnergySum(ApplianceDict(lights, fans, tv, hasAc, ac, hasFridge, fridge, hasWm, washingMachine));
            Sum(FilteredBreakdown(ApplianceNames, values).1) == total
            <==> (hasAc || ac == 0) && (hasFridge || fridge == 0) && (hasWm || washingMachine == 0)
  {
    var values := BreakdownEnergy(lights, fans, tv, ac, fridge, washingMachine);
    FilteredSum(values);
    SumOfSix(values);
    var gAc := if hasAc then ac else 0;
    var gFridge := if hasFridge then fridge else 0;
    var gWm := if hasWm then washingMachine else 0;
    assert ApplianceDict(lights, fans, tv, hasAc, ac, hasFridge, fridge, hasWm, washingMachine)
        == ApplianceDict(lights, fans, tv, true, gAc, true, gFridge, true, gWm);
    ApplianceDictEnergy(lights, fans, tv, gAc, gFridge, gWm);
  }

  /** A document of the shared collection: its insertion time and the
      optional `date` and `energy_kwh_per_day` fields. The profile documents
      the command-line calculator inserts have neither. */
  datatype Record = Record(date: Option<string>, timestamp: int, energy: Option<real>)

  /** `record.get('energy_kwh_per_day', 0)`. */
  function EnergyOf(r: Record): real {
    r.energy.GetOr(0.0)
  }

  function Energies(records: seq<Record>): (s: seq<real>)
    ensures |s| == |records|
    ensures forall i :: 0 <= i < |records| ==> s[i] == EnergyOf(records[i])
  {
    seq(|records|, i requires 0 <= i < |records| => EnergyOf(records[i]))
  }

  datatype Stats = Stats(totalRecords: nat, average: real, maximum: real, minimum: real)

  /** The history page's summary; nothing is shown for an empty history. */
  function HistoryStats(records: seq<Record>): (s: Option<Stats>)
    ensures s.None? <==> |records| == 0
    ensures s.Some? ==> s.value.totalRecords == |records|
    ensures s.Some? ==> s.value.minimum <= s.value.average <= s.value.maximum
    ensures s.Some? ==> forall i :: 0 <= i < |records| ==> s.value.minimum <= EnergyOf(records[i]) <= s.value.maximum
    ensures s.Some? ==> exists i :: 0 <= i < |records| && EnergyOf(records[i]) == s.value.maximum
    ensures s.Some? ==> exists i :: 0 <= i < |records| && EnergyOf(records[i]) == s.value.minimum
  {
    if |records| == 0 then None
    else
      var e := Energies(records);
      MeanWithinExtremes(e);
      Some(Stats(|records|, Mean(e), MaxOf(e), MinOf(e)))
  }

  /** The history is fetched newest first (sorted by timestamp, descending). */
  predicate NewestFirst(records: seq<Record>) {
    forall i, j :: 0 <= i < j < |records| ==> records[i].timestamp > records[j].timestamp
  }

  /** `create_energy_chart` as written: no chart for fewer than two records,
      otherwise the last seven records of the list. */
  function ChartWindow(records: seq<Record>): (w: Option<seq<Record>>)
    ensures w.None? <==> |records| < 2
    ensures w.Some? ==> |w.value| == Min(7, |records|)
    ensures w.Some? ==> forall j :: 0 <= j < |w.value| ==> w.value[j] == records[|records| - |w.value| + j]
  {
    if |records| < 2 then None else Some(records[|records| - Min(7, |records|)..])
  }

  /** On the newest-first list the history page passes it, that window is the
      seven OLDEST records: with more than seven, the newest is never plotted. */
  lemma ChartWindowMissesNewest(records: seq<Record>)
    requires NewestFirst(records)
    requires |records| > 7
    ensures ChartWindow(records).Some?
    ensures forall r :: r in ChartWindow(records).value ==> r.timestamp < records[0].timestamp
  {
    var w := ChartWindow(records).value;
    forall r | r in w
      ensures r.timestamp < records[0].timestamp
    {
      var j :| 0 <= j < |w| && w[j] == r;
      assert r == records[|records| - 7 + j];
    }
  }

  function Reverse<T>(s: seq<T>): (r: seq<T>)
    ensures |r| == |s|
    ensures forall i :: 0 <= i < |s| ==> r[i] == s[|s| - 1 - i]
  {
    if |s| == 0 then [] else Reverse(s[1..]) + [s[0]]
  }

  /** The window the chart's "last 7 entries" evidently means: the seven
      newest records, oldest first so the trend reads left to right. */
  function RecentChartWindow(records: seq<Record>): (w: Option<seq<Record>>)
    ensures w.None? <==> |records| < 2
    ensures w.Some? ==> |w.value| == Min(7, |records|)
    ensures w.Some? ==> w.value[|w.value| - 1] == records[0]
    ensures w.Some? && NewestFirst(records) ==>
              forall i, j :: 0 <= i < j < |w.value| ==> w.value[i].timestamp < w.value[j].timestamp
    ensures w.Some? && NewestFirst(records) ==>
              forall r :: r in records && r !in w.value ==> r.timestamp < w.value[0].timestamp
  {
    if |records| < 2 then None
    else
      var m := Min(7, |records|);
      var w := Reverse(records[..m]);
      assert forall k :: 0 <= k < m ==> w[m - 1 - k] == records[k];
      assert NewestFirst(records) ==> forall r :: r in records && r !in w ==> r.timestamp < w[0].timestamp by {
        if NewestFirst(records) {
          RecentWindowKeepsNewest(records, m, w);
        }
      }
      Some(w)
  }

  /** Every record left out of the newest-first window is older than all
      records in it. */
  lemma RecentWindowKeepsNewest(records: seq<Record>, m: nat, w: seq<Record>)
    requires NewestFirst(records)
    requires 1 <= m <= |records| && w == Reverse(records[..m])
    ensures forall r :: r in records && r !in w ==> r.timestamp < w[0].timestamp
  {
    forall k | 0 <= k < m
      ensures records[k] in w
    {
      assert w[m - 1 - k] == records[k];
    }
    assert w[0] == records[m - 1];
    forall r | r in records && r !in w
      ensures r.timestamp < w[0].timestamp
    {
      var k :| 0 <= k < |records| && records[k] == r;
      assert k >= m;
      assert records[m - 1].timestamp > records[k].timestamp;
    }
  }

  /** `create_energy_chart` reads `item['date']` and
      `item['energy_kwh_per_day']` without a default: a record can be
      plotted only when it has both. */
  predicate Chartable(r: Record) {
    r.date.Some? && r.energy.Some?
  }

  /** The history page after its records are fetched: nothing but a notice
      for an empty history; otherwise the summary metrics, then either the
      chart of the window (when there is one) and the table, or, when a
      windowed record lacks a field, the KeyError caught by the page's
      handler, which replaces the chart and the table by an error message. */
  datatype HistoryPage =
    | NoRecords
    | Page(stats: Stats, chart: Option<seq<Record>>)
    | FetchError(stats: Stats)

  /** The page for a given chart window. */
  function RenderHistory(records: seq<Record>, window: Option<seq<Record>>): (p: HistoryPage)
    ensures p.NoRecords? <==> |records| == 0
    ensures !p.NoRecords? ==> HistoryStats(records) == Some(p.stats)
    ensures |records| > 0 ==>
              (p.FetchError? <==> window.Some? && exists r :: r in window.value && !Chartable(r))
    ensures p.Page? ==> p.chart == window
  {
    if |records| == 0 then NoRecords
    else
      var stats := HistoryStats(records).value;
      if window.Some? && exists r :: r in window.value && !Chartable(r) then FetchError(stats)
      else Page(stats, window)
  }

  /** `show_history` as written: the chart is `create_energy_chart(records)`
      on the newest-first list. A chart is drawn only for two or more
      records; with more than seven it leaves out the newest; and a profile
      document among the last seven turns the page into the error message. */
  function HistoryView(records: seq<Record>): (p: HistoryPage)
    ensures p.NoRecords? <==> |records| == 0
    ensures !p.NoRecords? ==> HistoryStats(records) == Some(p.stats)
    ensures p.FetchError? <==>
              |records| >= 2 && exists j :: |records| - Min(7, |records|) <= j < |records| && !Chartable(records[j])
    ensures p.Page? ==> p.chart == ChartWindow(records)
  {
    var w := ChartWindow(records);
    assert |records| >= 2 ==>
             ((exists r :: r in w.value && !Chartable(r)) <==>
              exists j :: |records| - Min(7, |records|) <= j < |records| && !Chartable(records[j])) by {
      if |records| >= 2 {
        ChartWindowMembers(records);
      }
    }
    RenderHistory(records, w)
  }

  /** The chart of the page as written: drawn iff there are two or more
      records, exactly the last min(7, n) records of the list in list
      order, all chartable; on a newest-first list of more than seven
      records the newest is not in it. */
  lemma HistoryViewChart(records: seq<Record>)
    requires HistoryView(records).Page?
    ensures HistoryView(records).chart.Some? <==> |records| >= 2
    ensures HistoryView(records).chart.Some? ==>
              var c := HistoryView(records).chart.value;
              |c| == Min(7, |records|)
              && (forall j :: 0 <= j < |c| ==> c[j] == records[|records| - |c| + j] && Chartable(c[j]))
              && (NewestFirst(records) && |records| > 7 ==> records[0] !in c)
  {
    if |records| >= 2 {
      ChartWindowMembers(records);
      if NewestFirst(records) && |records| > 7 {
        ChartWindowMissesNewest(records);
      }
    }
  }

  /** The as-written window holds exactly the oldest min(7, n) records. */
  lemma ChartWindowMembers(records: seq<Record>)
    requires |records| >= 2
    ensures forall r :: r in ChartWindow(records).value <==>
              exists j :: |records| - Min(7, |records|) <= j < |records| && records[j] == r
    ensures (exists r :: r in ChartWindow(records).value && !Chartable(r)) <==>
              exists j :: |records| - Min(7, |records|) <= j < |records| && !Chartable(records[j])
    ensures (forall r :: r in ChartWindow(records).value ==> Chartable(r)) ==>
              forall j :: 0 <= j < |ChartWindow(records).value| ==> Chartable(ChartWindow(records).value[j])
  {
    var n := |records|;
    var w := ChartWindow(records).value;
    forall r | r in w
      ensures exists j :: n - Min(7, n) <= j < n && records[j] == r
    {
      var i :| 0 <= i < |w| && w[i] == r;
      assert records[n - |w| + i] == r;
    }
    forall j | n - Min(7, n) <= j < n
      ensures records[j] in w
    {
      assert w[j - (n - |w|)] == records[j];
    }
  }

  /** The page with the corrected window: whenever a chart is drawn, the
      newest record is in it. */
  function RecentHistoryView(records: seq<Record>): (p: HistoryPage)
    ensures p.NoRecords? <==> |records| == 0
    ensures !p.NoRecords? ==> HistoryStats(records) == Some(p.stats)
    ensures p.FetchError? <==>
              |records| >= 2 && exists j :: 0 <= j < Min(7, |records|) && !Chartable(records[j])
    ensures p.Page? && p.chart.Some? ==>
              |records| >= 2 && records[0] in p.chart.value && |p.chart.value| == Min(7, |records|)
              && forall r :: r in p.chart.value ==> Chartable(r)
  {
    var w := RecentChartWindow(records);
    assert |records| >= 2 ==> forall r :: r in w.value <==> exists k :: 0 <= k < Min(7, |records|) && records[k] == r by {
      if |records| >= 2 {
        RecentWindowMembers(records);
      }
    }
    RenderHistory(records, w)
  }

  /** The corrected window holds exactly the newest min(7, n) records. */
  lemma RecentWindowMembers(records: seq<Record>)
    requires |records| >= 2
    ensures forall r :: r in RecentChartWindow(records).value <==>
              exists k :: 0 <= k < Min(7, |records|) && records[k] == r
  {
    var m := Min(7, |records|);
    var w := RecentChartWindow(records).value;
    assert forall k :: 0 <= k < m ==> w[m - 1 - k] == records[k];
    forall r | r in w
      ensures exists k :: 0 <= k < m && records[k] == r
    {
      var i :| 0 <= i < |w| && w[i] == r;
      assert records[m - 1 - i] == r;
    }
  }
}
