/** The inputs shared by the two hours-based dashboards (the flat tracker and
    the smart tracker): home size, the yes/no appliance answers, and the
    slider values, plus the fridge-efficiency factor table both use. */
module HomeEnergy {

  datatype HomeSize = OneBhk | TwoBhk | ThreeBhk

  /** The label the home-size select box shows and the profile stores. */
  function HomeSizeLabel(h: HomeSize): (s: string)
    ensures |s| == 4 && s[1..] == "BHK"
    ensures s[0] == (match h case OneBhk => '1' case TwoBhk => '2' case ThreeBhk => '3')
  {
    match h
    case OneBhk => "1BHK"
    case TwoBhk => "2BHK"
    case ThreeBhk => "3BHK"
  }

  lemma HomeSizeLabelInjective(a: HomeSize, b: HomeSize)
    ensures HomeSizeLabel(a) == HomeSizeLabel(b) <==> a == b
  {
    if HomeSizeLabel(a) == HomeSizeLabel(b) {
      assert HomeSizeLabel(a)[0] == HomeSizeLabel(b)[0];
    }
  }

  /** The values the form hands to the calculation. `acUsage` and friends are
      the "Yes"/"No" select boxes; the numbers are the slider values, or the
      literal 0 the form substitutes when the slider is hidden. */
  datatype Usage = Usage(
    facility: HomeSize,
    acUsage: bool, acHours: int,
    fridgeUsage: bool, fridgeEfficiency: int,
    wmUsage: bool, wmCycles: int,
    lightsHours: int, fansHours: int, tvHours: int)

  /** What the form guarantees: a hidden slider reads as 0 ... */
  predicate Gated(u: Usage) {
    (!u.acUsage ==> u.acHours == 0)
    && (!u.fridgeUsage ==> u.fridgeEfficiency == 0)
    && (!u.wmUsage ==> u.wmCycles == 0)
  }

  /** ... and a shown slider stays within its bounds. */
  predicate InSliderRange(u: Usage) {
    0 <= u.acHours <= 24
    && 0 <= u.fridgeEfficiency <= 5
    && (u.fridgeUsage ==> 1 <= u.fridgeEfficiency)
    && 0 <= u.wmCycles <= 5
    && 0 <= u.lightsHours <= 24 && 0 <= u.fansHours <= 24 && 0 <= u.tvHours <= 24
  }

  /** The form: each appliance slider is read only when its box says "Yes". */
  function FromWidgets(facility: HomeSize,
                       acUsage: bool, acSlider: int,
                       fridgeUsage: bool, effSlider: int,
                       wmUsage: bool, wmSlider: int,
                       lightsHours: int, fansHours: int, tvHours: int): (u: Usage)
    ensures Gated(u)
    ensures u.acUsage == acUsage && u.fridgeUsage == fridgeUsage && u.wmUsage == wmUsage
    ensures acUsage ==> u.acHours == acSlider
    ensures fridgeUsage ==> u.fridgeEfficiency == effSlider
    ensures wmUsage ==> u.wmCycles == wmSlider
    ensures 0 <= acSlider <= 24 && 1 <= effSlider <= 5 && 0 <= wmSlider <= 5
            && 0 <= lightsHours <= 24 && 0 <= fansHours <= 24 && 0 <= tvHours <= 24
            ==> InSliderRange(u)
  {
    Usage(facility,
          acUsage, if acUsage then acSlider else 0,
          fridgeUsage, if fridgeUsage then effSlider else 0,
          wmUsage, if wmUsage then wmSlider else 0,
          lightsHours, fansHours, tvHours)
  }

  /** `{1: 0.2, 2: 0.18, 3: 0.15, 4: 0.12, 5: 0.1}.get(eff, 0.15)`:
      kWh per hour of fridge running, better ratings drawing less. */
  function FridgeFactor(eff: int): (f: real)
    ensures 0.1 <= f <= 0.2
    ensures !(1 <= eff <= 5) ==> f == 0.15
  {
    if eff == 1 then 0.2
    else if eff == 2 then 0.18
    else if eff == 3 then 0.15
    else if eff == 4 then 0.12
    else if eff == 5 then 0.1
    else 0.15
  }

  /** A higher efficiency rating always means a smaller factor. */
  lemma FridgeFactorDecreasing(a: int, b: int)
    requires 1 <= a < b <= 5
    ensures FridgeFactor(b) < FridgeFactor(a)
  {
  }
}
