/** The flat energy tracker: the same figures as the smart tracker, but the
    base load comes from an if-chain on the home size and the appliance load
    is accumulated one `+=` at a time, with AC counted only when the AC
    answer is "Yes". */
module FlatTracker {
  import opened Numerics
  import opened HomeEnergy
  import opened SessionState
  import SmartTracker

  /** The energy card. Base and appliance loads as computed step by step;
      they match the smart tracker except that AC hours are ignored when
      the AC answer is "No", which the form never lets happen. */
  method ComputeEnergy(u: Usage) returns (base: real, appliance: real, total: real, cost: real, carbon: real)
    ensures base == SmartTracker.BaseEnergyTable(u.facility)
    ensures appliance == SmartTracker.EnergyFigures(u).appliance
                         - (if u.acUsage then 0.0 else u.acHours as real * 1.5)
    ensures total == base + appliance
    ensures cost == total * 5.0 && carbon == total * 0.82
    ensures Gated(u) ==> total == SmartTracker.EnergyFigures(u).total
    ensures InSliderRange(u) ==> total >= 2.4 && cost >= 0.0 && carbon >= 0.0
  {
    base := 0.0;
    if u.facility == OneBhk {
      base := 2.0 * 0.4 + 2.0 * 0.8;
    } else if u.facility == TwoBhk {
      base := 3.0 * 0.4 + 3.0 * 0.8;
    } else if u.facility == ThreeBhk {
      base := 4.0 * 0.4 + 4.0 * 0.8;
    }

    appliance := 0.0;
    if u.acUsage {
      appliance := appliance + u.acHours as real * 1.5;
    }
    if u.fridgeUsage {
      appliance := appliance + 24.0 * FridgeFactor(u.fridgeEfficiency);
    }
    appliance := appliance + u.wmCycles as real * 2.0;
    appliance := appliance + u.lightsHours as real * 0.06;
    appliance := appliance + u.fansHours as real * 0.075;
    appliance := appliance + u.tvHours as real * 0.15;

    total := base + appliance;
    cost := total * 5.0;
    carbon := total * 0.82;

    SumOfSix(SmartTracker.ApplianceBreakdown(u));
  }

  /** The save button: compute the card's figures and store them under the
      selected date, or refuse when the profile has no name. */
  method SaveDailyConsumption(session: Session, d: Date, p: Profile, u: Usage) returns (outcome: SaveOutcome)
    modifies session
    ensures p.name == "" ==> outcome == MissingName && session.energyData == old(session.energyData)
    ensures p.name != "" ==> session.energyData == Upsert(old(session.energyData), FlatEntry(d, p, u))
    ensures p.name != "" ==> |session.energyData| == |old(session.energyData)| + (if outcome == Saved then 1 else 0)
    ensures outcome == Updated <==> p.name != "" && FirstIndexWithDate(old(session.energyData), d).Some?
    ensures outcome == Saved <==> p.name != "" && FirstIndexWithDate(old(session.energyData), d).None?
    ensures Gated(u) ==> FlatEntry(d, p, u) == SmartTracker.DailyEntry(d, p, u)
    ensures session.userProfile == old(session.userProfile)
  {
    var base, appliance, total, cost, carbon := ComputeEnergy(u);
    var entry := Entry(d, p.name, p.city, p.area, u.facility, total, base, appliance, cost, carbon,
                       u.acHours, u.fridgeEfficiency, u.wmCycles, u.lightsHours, u.fansHours, u.tvHours);
    outcome := session.SaveDailyConsumption(entry);
  }

  /** The entry the flat tracker stores, its figures stated against the
      smart tracker's with the AC correction. */
  function FlatEntry(d: Date, p: Profile, u: Usage): (e: Entry)
    ensures e.date == d && e.name == p.name
    ensures e.totalEnergy == e.baseEnergy + e.applianceEnergy
    ensures e.cost == e.totalEnergy * 5.0 && e.carbonFootprint == e.totalEnergy * 0.82
  {
    var f := SmartTracker.EnergyFigures(u);
    var appliance := f.appliance - (if u.acUsage then 0.0 else u.acHours as real * 1.5);
    var total := f.base + appliance;
    Entry(d, p.name, p.city, p.area, u.facility, total, f.base, appliance, total * 5.0, total * 0.82,
          u.acHours, u.fridgeEfficiency, u.wmCycles, u.lightsHours, u.fansHours, u.tvHours)
  }
}
