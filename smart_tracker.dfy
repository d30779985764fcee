/** The smart energy tracker: base energy from a home-size table, a named
    per-appliance breakdown, derived cost and carbon figures, the warning and
    efficiency score, the most consuming appliance, the date-keyed save and
    the projected monthly bill. */
module SmartTracker {
  import opened Wrappers
  import opened Numerics
  import opened HomeEnergy
  import opened SessionState

  /** `{"1BHK": 2*0.4+2*0.8, "2BHK": 3*0.4+3*0.8, "3BHK": 4*0.4+4*0.8}`:
      n lights at 0.4 and n fans at 0.8 for n = 2, 3, 4. */
  function BaseEnergyTable(h: HomeSize): (e: real)
    ensures h == OneBhk ==> e == 2.4
    ensures h == TwoBhk ==> e == 3.6
    ensures h == ThreeBhk ==> e == 4.8
  {
    match h
    case OneBhk => 2.0 * 0.4 + 2.0 * 0.8
    case TwoBhk => 3.0 * 0.4 + 3.0 * 0.8
    case ThreeBhk => 4.0 * 0.4 + 4.0 * 0.8
  }

  const BreakdownKeys: seq<string> := ["AC", "Fridge", "Washing Machine", "Lights", "Fans", "TV"]

  /** The values of `appliance_breakdown`, in its key order. AC is counted
      from its hours without looking at the AC answer; the fridge only when
      the answer is "Yes". */
  function ApplianceBreakdown(u: Usage): (b: seq<real>)
    ensures |b| == |BreakdownKeys|
    ensures InSliderRange(u) ==> forall i :: 0 <= i < |b| ==> b[i] >= 0.0
    ensures b[1] == (if u.fridgeUsage then 24.0 * FridgeFactor(u.fridgeEfficiency) else 0.0)
  {
    [u.acHours as real * 1.5,
     if u.fridgeUsage then 24.0 * FridgeFactor(u.fridgeEfficiency) else 0.0,
     u.wmCycles as real * 2.0,
     u.lightsHours as real * 0.06,
     u.fansHours as real * 0.075,
     u.tvHours as real * 0.15]
  }

  datatype Figures = Figures(base: real, appliance: real, total: real, cost: real, carbon: real)

  /** The energy figures shown on the card: total = base + appliances,
      cost at 5 per kWh, carbon at 0.82 kg per kWh. */
  function EnergyFigures(u: Usage): (f: Figures)
    ensures f.base == BaseEnergyTable(u.facility)
    ensures f.appliance == Sum(ApplianceBreakdown(u))
    ensures f.total == f.base + f.appliance
    ensures f.cost == f.total * 5.0 && f.carbon == f.total * 0.82
    ensures InSliderRange(u) ==> 2.4 <= f.total <= 62.44 && f.cost >= 0.0 && f.carbon >= 0.0
  {
    var b := ApplianceBreakdown(u);
    var base := BaseEnergyTable(u.facility);
    var appliance := Sum(b);
    SumOfSix(b);
    var total := base + appliance;
    Figures(base, appliance, total, total * 5.0, total * 0.82)
  }

  /** `total_energy > 20` shows the high-consumption warning. */
  predicate HighConsumptionWarning(total: real) {
    total > 20.0
  }

  datatype EfficiencyScore = Efficient | Moderate | HighConsumption

  function Score(total: real): (s: EfficiencyScore)
    ensures s == Efficient <==> total < 10.0
    ensures s == Moderate <==> 10.0 <= total < 15.0
    ensures s == HighConsumption <==> total >= 15.0
  {
    if total < 10.0 then Efficient
    else if total < 15.0 then Moderate
    else HighConsumption
  }

  /** Whenever the warning is shown, the score already says high consumption;
      the converse fails between 15 and 20. */
  lemma WarningImpliesHighScore(total: real)
    ensures HighConsumptionWarning(total) ==> Score(total) == HighConsumption
    ensures Score(17.5) == HighConsumption && !HighConsumptionWarning(17.5)
  {
  }

  /** With nothing but the base load, a home never triggers the warning and
      always scores as efficient. */
  lemma BaseLoadIsEfficient(u: Usage)
    requires u.acHours == 0 && !u.fridgeUsage && u.wmCycles == 0
    requires u.lightsHours == 0 && u.fansHours == 0 && u.tvHours == 0
    ensures Score(EnergyFigures(u).total) == Efficient
    ensures !HighConsumptionWarning(EnergyFigures(u).total)
  {
    SumOfSix(ApplianceBreakdown(u));
  }

  /** `max(d, key=d.get)`: the first position whose value is largest. */
  function ArgMaxFirst(b: seq<real>): (i: nat)
    requires |b| > 0
    ensures i < |b|
    ensures forall j :: 0 <= j < |b| ==> b[j] <= b[i]
    ensures forall j :: 0 <= j < i ==> b[j] < b[i]
  {
    if |b| == 1 then 0
    else
      var k := ArgMaxFirst(b[..|b| - 1]);
      if b[|b| - 1] > b[k] then |b| - 1 else k
  }

  /** The breakdown key reported as the most consuming appliance. */
  function MaxAppliance(u: Usage): (name: string)
    ensures exists i :: 0 <= i < 6 && name == BreakdownKeys[i]
                        && (forall j :: 0 <= j < 6 ==> ApplianceBreakdown(u)[j] <= ApplianceBreakdown(u)[i])
                        && (forall j :: 0 <= j < i ==> ApplianceBreakdown(u)[j] < ApplianceBreakdown(u)[i])
  {
    BreakdownKeys[ArgMaxFirst(ApplianceBreakdown(u))]
  }

  /** Ties go to the earlier key: when every appliance is off, the answer is AC. */
  lemma MaxApplianceTieGoesToAc(u: Usage)
    requires u.acHours == 0 && !u.fridgeUsage && u.wmCycles == 0
    requires u.lightsHours == 0 && u.fansHours == 0 && u.tvHours == 0
    ensures MaxAppliance(u) == "AC"
  {
    var b := ApplianceBreakdown(u);
    var i := ArgMaxFirst(b);
    assert b[0] == 0.0 && b[i] == 0.0;
    assert i == 0;
  }

  /** The entry the save button stores for a day. */
  function DailyEntry(d: Date, p: Profile, u: Usage): (e: Entry)
    ensures e.date == d && e.name == p.name && e.facility == u.facility
    ensures e.totalEnergy == e.baseEnergy + e.applianceEnergy
    ensures e.cost == e.totalEnergy * 5.0 && e.carbonFootprint == e.totalEnergy * 0.82
    ensures e.totalEnergy == EnergyFigures(u).total
  {
    var f := EnergyFigures(u);
    Entry(d, p.name, p.city, p.area, u.facility, f.total, f.base, f.appliance, f.cost, f.carbon,
          u.acHours, u.fridgeEfficiency, u.wmCycles, u.lightsHours, u.fansHours, u.tvHours)
  }

  /** The save button with the current form values. */
  method SaveDailyConsumption(session: Session, d: Date, p: Profile, u: Usage) returns (outcome: SaveOutcome)
    modifies session
    ensures p.name == "" ==> outcome == MissingName && session.energyData == old(session.energyData)
    ensures p.name != "" ==> session.energyData == Upsert(old(session.energyData), DailyEntry(d, p, u))
    ensures p.name != "" ==> |session.energyData| == |old(session.energyData)| + (if outcome == Saved then 1 else 0)
    ensures outcome == Updated <==> p.name != "" && FirstIndexWithDate(old(session.energyData), d).Some?
    ensures outcome == Saved <==> p.name != "" && FirstIndexWithDate(old(session.energyData), d).None?
    ensures session.userProfile == old(session.userProfile)
  {
    outcome := session.SaveDailyConsumption(DailyEntry(d, p, u));
  }

  predicate InMonth(e: Entry, year: int, month: int) {
    e.date.year == year && e.date.month == month
  }

  /** The positions among the first `n` entries that fall in the given
      month: exactly those positions, each once, in list order. */
  function MonthIndicesBelow(entries: seq<Entry>, year: int, month: int, n: nat): (ix: seq<nat>)
    requires n <= |entries|
    ensures forall j :: 0 <= j < |ix| ==> ix[j] < n && InMonth(entries[ix[j]], year, month)
    ensures forall k :: 0 <= k < n && InMonth(entries[k], year, month) ==> k in ix
    ensures forall i, j :: 0 <= i < j < |ix| ==> ix[i] < ix[j]
  {
    if n == 0 then []
    else MonthIndicesBelow(entries, year, month, n - 1) + (if InMonth(entries[n - 1], year, month) then [n - 1] else [])
  }

  /** The positions of the entries that fall in the given month. */
  function MonthIndices(entries: seq<Entry>, year: int, month: int): (ix: seq<nat>)
    ensures forall j :: 0 <= j < |ix| ==> ix[j] < |entries| && InMonth(entries[ix[j]], year, month)
    ensures forall k :: 0 <= k < |entries| && InMonth(entries[k], year, month) ==> k in ix
    ensures forall i, j :: 0 <= i < j < |ix| ==> ix[i] < ix[j]
    ensures |ix| == 0 <==> forall k :: 0 <= k < |entries| ==> !InMonth(entries[k], year, month)
  {
    var ix := MonthIndicesBelow(entries, year, month, |entries|);
    assert |ix| > 0 ==> InMonth(entries[ix[0]], year, month);
    ix
  }

  /** The costs of the first `n` entries that fall in the given month, in
      list order. */
  function MonthCostsBelow(entries: seq<Entry>, year: int, month: int, n: nat): (c: seq<real>)
    requires n <= |entries|
    ensures |c| == |MonthIndicesBelow(entries, year, month, n)|
    ensures forall j :: 0 <= j < |c| ==> c[j] == entries[MonthIndicesBelow(entries, year, month, n)[j]].cost
  {
    if n == 0 then []
    else
      var rest := MonthCostsBelow(entries, year, month, n - 1);
      if InMonth(entries[n - 1], year, month) then rest + [entries[n - 1].cost] else rest
  }

  /** The costs of the entries that fall in the given month, in list order:
      one cost per such entry. */
  function MonthCosts(entries: seq<Entry>, year: int, month: int): (c: seq<real>)
    ensures |c| == |MonthIndices(entries, year, month)|
    ensures forall j :: 0 <= j < |c| ==> c[j] == entries[MonthIndices(entries, year, month)[j]].cost
    ensures |c| == 0 <==> forall k :: 0 <= k < |entries| ==> !InMonth(entries[k], year, month)
  {
    MonthCostsBelow(entries, year, month, |entries|)
  }

  /** 30 times the mean daily cost over the current month's entries, and
      nothing when the month has none. */
  function ProjectedBill(entries: seq<Entry>, year: int, month: int): (bill: Option<real>)
    ensures bill.None? <==> forall k :: 0 <= k < |entries| ==> !InMonth(entries[k], year, month)
    ensures bill.Some? ==> bill.value == 30.0 * Mean(MonthCosts(entries, year, month))
  {
    var costs := MonthCosts(entries, year, month);
    if |costs| == 0 then None else Some(Mean(costs) * 30.0)
  }

  /** A month whose every entry costs the same `x` is projected at `30 x`. */
  lemma ProjectedBillUniformDays(entries: seq<Entry>, year: int, month: int, x: real)
    requires exists k :: 0 <= k < |entries| && InMonth(entries[k], year, month)
    requires forall k :: 0 <= k < |entries| && InMonth(entries[k], year, month) ==> entries[k].cost == x
    ensures ProjectedBill(entries, year, month) == Some(30.0 * x)
  {
    var costs := MonthCosts(entries, year, month);
    MeanBetween(costs, x, x);
  }

  /** The projected bill lies between 30 times the cheapest and 30 times the
      dearest day of the month. */
  lemma ProjectedBillBetweenDays(entries: seq<Entry>, year: int, month: int)
    requires ProjectedBill(entries, year, month).Some?
    ensures exists k :: 0 <= k < |entries| && InMonth(entries[k], year, month)
                        && entries[k].cost * 30.0 <= ProjectedBill(entries, year, month).value
    ensures exists k :: 0 <= k < |entries| && InMonth(entries[k], year, month)
                        && ProjectedBill(entries, year, month).value <= entries[k].cost * 30.0
  {
    var costs := MonthCosts(entries, year, month);
    MeanWithinExtremes(costs);
    var lo :| 0 <= lo < |costs| && costs[lo] == MinOf(costs);
    var hi :| 0 <= hi < |costs| && costs[hi] == MaxOf(costs);
    var ix := MonthIndices(entries, year, month);
    var klo, khi := ix[lo], ix[hi];
    assert entries[klo].cost * 30.0 <= Mean(costs) * 30.0;
    assert Mean(costs) * 30.0 <= entries[khi].cost * 30.0;
  }

  /** Saving a day of the current month always yields a projected bill. */
  lemma ProjectedBillAfterSave(entries: seq<Entry>, e: Entry)
    ensures ProjectedBill(Upsert(entries, e), e.date.year, e.date.month).Some?
  {
    UpsertFindsSaved(entries, e);
  }
}
