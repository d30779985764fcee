/** The satellite-image monitor: a simulated land-cover model that turns four
    uniform draws into shares, the confidence and environmental metrics
    derived from them, the alert rules, and the append-only analysis history
    with its dashboard and insight views. The draws, the clock and the
    selected region are parameters. */
module LandCover {
  import opened Wrappers
  import opened Numerics

  /** The four `random.uniform` draws, in the order they are made. */
  datatype Draws = Draws(green: real, water: real, desert: real, cloudy: real)

  /** U(0.2, 0.5), U(0.1, 0.3), U(0.1, 0.3), U(0.05, 0.3). */
  predicate DrawsInRange(d: Draws) {
    0.2 <= d.green <= 0.5 && 0.1 <= d.water <= 0.3
    && 0.1 <= d.desert <= 0.3 && 0.05 <= d.cloudy <= 0.3
  }

  /** The prediction dictionary, keys in insertion order. */
  datatype Predictions = Predictions(greenArea: real, water: real, desert: real, cloudy: real)

  const PredictionKeys: seq<string> := ["Green Area", "Water", "Desert", "Cloudy"]

  function Values(p: Predictions): (v: seq<real>)
    ensures |v| == |PredictionKeys|
  {
    [p.greenArea, p.water, p.desert, p.cloudy]
  }

  function DrawTotal(d: Draws): real {
    d.green + d.water + d.desert + d.cloudy
  }

  /** `v / total` for every draw, before rounding: four proper fractions that
      add up to one. */
  function RawShares(d: Draws): (p: Predictions)
    requires DrawsInRange(d)
    ensures 0.0 < p.greenArea < 1.0 && 0.0 < p.water < 1.0 && 0.0 < p.desert < 1.0 && 0.0 < p.cloudy < 1.0
    ensures p.greenArea + p.water + p.desert + p.cloudy == 1.0
  {
    var t := DrawTotal(d);
    ShareOfTotal(d.green, t);
    ShareOfTotal(d.water, t);
    ShareOfTotal(d.desert, t);
    ShareOfTotal(d.cloudy, t);
    assert d.green / t + d.water / t + d.desert / t + d.cloudy / t == t / t;
    Predictions(d.green / t, d.water / t, d.desert / t, d.cloudy / t)
  }

  /** A positive part of a larger total is a proper fraction of it. */
  lemma ShareOfTotal(x: real, t: real)
    requires 0.0 < x < t
    ensures 0.0 < x / t < 1.0
  {
    assert x / t == x * (1.0 / t);
    assert 1.0 / t * t == 1.0;
  }

  /** `simulate_model`: the raw shares rounded to three places. */
  function SimulateModel(d: Draws): (p: Predictions)
    requires DrawsInRange(d)
    ensures Abs(p.greenArea - RawShares(d).greenArea) <= 0.0005
    ensures Abs(p.water - RawShares(d).water) <= 0.0005
    ensures Abs(p.desert - RawShares(d).desert) <= 0.0005
    ensures Abs(p.cloudy - RawShares(d).cloudy) <= 0.0005
    ensures Abs(p.greenArea + p.water + p.desert + p.cloudy - 1.0) <= 0.002
    ensures p.greenArea >= 0.0 && p.water >= 0.0 && p.desert >= 0.0 && p.cloudy >= 0.0
  {
    var r := RawShares(d);
    Predictions(Round3(r.greenArea), Round3(r.water), Round3(r.desert), Round3(r.cloudy))
  }

  /** `round(max(predictions.values()) * 100)`, as stored in the history. */
  function ConfidencePercent(p: Predictions): (c: int)
    ensures exists i :: 0 <= i < 4 && Values(p)[i] * 100.0 - 0.5 < c as real <= Values(p)[i] * 100.0 + 0.5
    ensures forall i :: 0 <= i < 4 ==> Values(p)[i] * 100.0 - 0.5 < c as real
  {
    Round0(MaxOf(Values(p)) * 100.0)
  }

  /** No draw is more than two thirds of the total. */
  lemma RawShareAtMostTwoThirds(d: Draws)
    requires DrawsInRange(d)
    ensures RawShares(d).greenArea <= 2.0 / 3.0 && RawShares(d).water <= 2.0 / 3.0
    ensures RawShares(d).desert <= 2.0 / 3.0 && RawShares(d).cloudy <= 2.0 / 3.0
  {
    var t := DrawTotal(d);
    FractionAtMost(d.green, t, 2.0 / 3.0);
    FractionAtMost(d.water, t, 2.0 / 3.0);
    FractionAtMost(d.desert, t, 2.0 / 3.0);
    FractionAtMost(d.cloudy, t, 2.0 / 3.0);
  }

  lemma FractionAtMost(x: real, t: real, bound: real)
    requires t > 0.0 && x <= bound * t
    ensures x / t <= bound
  {
    assert x / t * t == x;
  }

  /** The stored confidence of a simulated analysis is between 25 and 67 per
      cent: the largest of four shares summing to one is at least a quarter,
      and no draw reaches two thirds of the total. */
  lemma ConfidenceBounds(d: Draws)
    requires DrawsInRange(d)
    ensures 25 <= ConfidencePercent(SimulateModel(d)) <= 67
  {
    var r := RawShares(d);
    var p := SimulateModel(d);
    RawShareAtMostTwoThirds(d);
    var m := MaxOf(Values(p));
    assert Values(p)[0] == p.greenArea && Values(p)[1] == p.water;
    assert Values(p)[2] == p.desert && Values(p)[3] == p.cloudy;
    assert m <= 2.0 / 3.0 + 0.0005;
    if r.greenArea >= 0.25 {
      assert m >= p.greenArea;
    } else if r.water >= 0.25 {
      assert m >= p.water;
    } else if r.desert >= 0.25 {
      assert m >= p.desert;
    } else {
      assert m >= p.cloudy;
    }
    assert m >= 0.2495;
  }

  /** The four environmental figures shown under the chart. */
  datatype Metrics = Metrics(vegetation: int, waterQuality: int, deforestation: real, urbanExpansion: real)

  function EnvironmentalMetrics(p: Predictions): (m: Metrics)
    ensures p.greenArea >= 0.0 ==> m.vegetation as real <= p.greenArea * 100.0 < m.vegetation as real + 1.0
    ensures p.water >= 0.0 ==> m.waterQuality as real <= p.water * 100.0 < m.waterQuality as real + 1.0
    ensures Abs(m.deforestation - (0.3 - p.greenArea) * 10.0) <= 0.05
    ensures Abs(m.urbanExpansion - (1.0 - p.greenArea - p.water) * 2.0) <= 0.05
  {
    Metrics(Trunc(p.greenArea * 100.0), Trunc(p.water * 100.0),
            Round1((0.3 - p.greenArea) * 10.0), Round1((1.0 - p.greenArea - p.water) * 2.0))
  }

  datatype Alerts = Alerts(lowVegetation: bool, highDeforestation: bool, limitedWater: bool)

  function AlertsFor(m: Metrics): Alerts {
    Alerts(m.vegetation < 50, m.deforestation > 5.0, m.waterQuality < 30)
  }

  /** In terms of the shares: low vegetation exactly when green is under one
      half, limited water exactly when water is under 0.3, and the
      deforestation alert never fires for a non-negative green share. */
  lemma AlertConditions(p: Predictions)
    requires p.greenArea >= 0.0 && p.water >= 0.0
    ensures AlertsFor(EnvironmentalMetrics(p)).lowVegetation <==> p.greenArea < 0.5
    ensures AlertsFor(EnvironmentalMetrics(p)).limitedWater <==> p.water < 0.3
    ensures !AlertsFor(EnvironmentalMetrics(p)).highDeforestation
    ensures EnvironmentalMetrics(p).deforestation <= 3.05
  {
    TruncBelow(p.greenArea * 100.0, 50);
    TruncBelow(p.water * 100.0, 30);
  }

  /** One saved analysis. */
  datatype HistoryEntry = HistoryEntry(timestamp: string, region: string, predictions: Predictions, confidence: int)

  /** `st.session_state.history`: grows by one entry per analysis. */
  class AnalysisHistory {
    var history: seq<HistoryEntry>

    constructor ()
      ensures history == []
    {
      history := [];
    }

    /** The Analyze button: simulate, record, and derive metrics and alerts. */
    method AnalyzeImage(d: Draws, timestamp: string, region: string)
      returns (predictions: Predictions, metrics: Metrics, alerts: Alerts)
      requires DrawsInRange(d)
      modifies this
      ensures predictions == SimulateModel(d)
      ensures history == old(history) + [HistoryEntry(timestamp, region, predictions, ConfidencePercent(predictions))]
      ensures 25 <= history[|history| - 1].confidence <= 67
      ensures metrics == EnvironmentalMetrics(predictions) && alerts == AlertsFor(metrics)
      ensures !alerts.highDeforestation
    {
      predictions := SimulateModel(d);
      ConfidenceBounds(d);
      var confidence := MaxOf(Values(predictions));
      var percent := Round0(confidence * 100.0);
      assert percent == ConfidencePercent(predictions);
      history := history + [HistoryEntry(timestamp, region, predictions, percent)];
      metrics := EnvironmentalMetrics(predictions);
      alerts := AlertsFor(metrics);
      AlertConditions(predictions);
    }
  }

  /** `reversed(history[-5:])`: the last five analyses, newest first. */
  function DashboardView(history: seq<HistoryEntry>): (v: seq<HistoryEntry>)
    ensures |v| == Min(5, |history|)
    ensures forall i :: 0 <= i < |v| ==> v[i] == history[|history| - 1 - i]
  {
    var tail := history[|history| - Min(5, |history|)..];
    seq(|tail|, i requires 0 <= i < |tail| => tail[|tail| - 1 - i])
  }

  /** After an analysis the dashboard opens with it. */
  lemma DashboardShowsNewest(history: seq<HistoryEntry>, e: HistoryEntry)
    ensures DashboardView(history + [e])[0] == e
    ensures |DashboardView(history + [e])| == Min(5, |history| + 1)
  {
  }

  datatype Insights = Insights(totalAnalyses: nat, avgVegetation: real, avgWater: real, avgDeforestation: real)

  function GreenShares(history: seq<HistoryEntry>): (s: seq<real>)
    ensures |s| == |history| && forall i :: 0 <= i < |s| ==> s[i] == history[i].predictions.greenArea
  {
    seq(|history|, i requires 0 <= i < |history| => history[i].predictions.greenArea)
  }

  function WaterShares(history: seq<HistoryEntry>): (s: seq<real>)
    ensures |s| == |history| && forall i :: 0 <= i < |s| ==> s[i] == history[i].predictions.water
  {
    seq(|history|, i requires 0 <= i < |history| => history[i].predictions.water)
  }

  function DeforestationTerms(history: seq<HistoryEntry>): (s: seq<real>)
    ensures |s| == |history|
    ensures forall i :: 0 <= i < |s| ==> s[i] == (0.3 - history[i].predictions.greenArea) * 10.0
  {
    seq(|history|, i requires 0 <= i < |history| => (0.3 - history[i].predictions.greenArea) * 10.0)
  }

  /** The Insights tab: nothing for an empty history; otherwise the count and
      the three averages. The deforestation average is the deforestation of
      the average green share. */
  function InsightsSummary(history: seq<HistoryEntry>): (r: Option<Insights>)
    ensures r.None? <==> |history| == 0
    ensures r.Some? ==> r.value.totalAnalyses == |history|
                        && r.value.avgDeforestation == (0.3 - r.value.avgVegetation) * 10.0
    ensures r.Some? ==> r.value.avgVegetation == Mean(GreenShares(history))
                        && r.value.avgWater == Mean(WaterShares(history))
                        && r.value.avgDeforestation == Mean(DeforestationTerms(history))
  {
    if |history| == 0 then None
    else
      var g := GreenShares(history);
      var t := DeforestationTerms(history);
      MeanAffine(g, t, 3.0, -10.0);
      Some(Insights(|history|, Mean(g), Mean(WaterShares(history)), Mean(t)))
  }

  /** The averages of simulated analyses stay within the draws' reach. */
  lemma InsightsWithinShares(history: seq<HistoryEntry>)
    requires |history| > 0
    requires forall i :: 0 <= i < |history| ==>
               0.0 <= history[i].predictions.greenArea <= 1.0 && 0.0 <= history[i].predictions.water <= 1.0
    ensures 0.0 <= InsightsSummary(history).value.avgVegetation <= 1.0
    ensures 0.0 <= InsightsSummary(history).value.avgWater <= 1.0
    ensures -7.0 <= InsightsSummary(history).value.avgDeforestation <= 3.0
  {
    MeanBetween(GreenShares(history), 0.0, 1.0);
    MeanBetween(WaterShares(history), 0.0, 1.0);
  }
}
