# Household energy calculators, solar dataset generator and land-cover monitor — a Dafny model

The repository is a set of small Python teaching scripts. Under their
Streamlit widgets, MongoDB calls, plots and scikit-learn code lies a thin
layer of arithmetic and list logic. That layer is modelled here in four groups.

1. **Appliance energy calculators** (`light_cal_ui.py`, `light_cal.py`,
   `f4_flat_ui.py`, `f5.py`).
   - Weighted sums of appliance counts or hours over fixed rate tables.
   - A home-size base load and a fridge-efficiency factor table.
   - Cost and carbon figures.
   - Threshold rules that choose a tips list, an efficiency score or a
     warning.
   - The breakdown chart data and the history summary and chart window.
   - Properties relating the four calculators to one another.
2. **The date-keyed save into the session log** (`f4_flat_ui.py`, `f5.py`).
   The `energy_data` list is updated in place: the first entry with the
   selected date is overwritten, otherwise the entry is appended. The same
   save also covers the sidebar's profile update and the projected monthly
   bill.
3. **The seasonal synthetic solar dataset** (`day2/*.py`).
   - For each month of a month-to-days table, in table order, the generator
     emits one record per day.
   - Each record holds five sampled features rounded to cents, a
     season-specific `kwh`, the season label and the month label.
   - The three-season script concatenates the three outputs.
   - The two winter formulas are modelled as two named variants.
4. **The land-cover monitor** (`ml_imageUpload.py`).
   - Share normalisation of four draws.
   - The confidence and environmental metrics, and the alert rules.
   - The append-only history with its last-five dashboard and its
     averages.

Quantities are Dafny `real`s. Python's `round(x, n)` is modelled as
rounding half up to `n` places, with the contract
`x - 0.5 * 10^-n < round(x, n) <= x + 0.5 * 10^-n` and its sign. Python
rounds exact ties to even instead, so the two agree except on an exact tie,
where Python may round down (`round(0.125, 2)` is 0.12 in Python and 0.13
here). The strict lower bound therefore holds only for half-up rounding.
`int(x)` is truncation toward zero.

Randomness, console input, widgets and the clock become parameters:
- `np.random.uniform` draws are a `Sample` sequence, one sample per
  record, each inside its season's intervals;
- `random.uniform` draws are a `Draws` value;
- the typed and selected widget values are method arguments.

Code that changes state step by step is modelled as methods with loops and
invariants: `calculate_energy`'s loop, the `+=` chains of `light_cal.py`
and `f4_flat_ui.py`, the generators' nested loops, and the tips list.
`st.session_state` becomes the classes `SessionState.Session` and
`LandCover.AnalysisHistory`, whose methods update their fields.

Files (one module each):
- `wrappers.dfy`: `Option` and `Result`.
- `numerics.dfy`: rounding, truncation, sums, means and extremes.
- `light_cal_ui.dfy`, `light_cal.dfy`: the count-based calculators.
- `home_energy.dfy`: the inputs and fridge table shared by the two
  dashboards.
- `session_state.dfy`: entries, the upsert, the profile and the session.
- `smart_tracker.dfy` (`f5.py`) and `flat_tracker.dfy` (`f4_flat_ui.py`).
- `solar_dataset.dfy`: the generator shared by every season.
- `day2_main.dfy`, `day2_random_data.dfy`, `day2_random_winter.dfy`,
  `day2_monsoon.dfy`, `day2_sir.dfy`: the solar scripts.
- `land_cover.dfy`: the land-cover monitor.

## Model

| member | source | states |
|---|---|---|
| LightCalUi.CalculateEnergy | light_cal_ui.py:118-133 | Returns Err with the first positive-count key missing from the rate table (KeyError) iff one exists. Otherwise returns the 2-place rounding of the sum of count·rate over the items with positive count. |
| LightCalUi.EnergySum | light_cal_ui.py:128-131 | The accumulated total is never negative. |
| LightCalUi.EnergySumMonotone | light_cal_ui.py:129-131 | Raising any count never lowers the total. |
| LightCalUi.EnergySumIgnoresNonPositive | light_cal_ui.py:130 | Zero and negative counts contribute nothing: lists that differ only in such counts have the same total. |
| LightCalUi.ApplianceDict | light_cal_ui.py:285-292 | Six items, all keys in the rate table. The AC, fridge and washing-machine counts are 0 when the matching answer is "No", whatever was typed. |
| LightCalUi.ApplianceDictEnergy | light_cal_ui.py:119-131 | Over the form's dict the total is 0.2·lights + 0.2·fans + 0.3·tv + 3.0·ac + 3.1·fridge + 2.8·washing machine, counting positive counts only. |
| LightCalUi.CostsFor | light_cal_ui.py:296-299 | The daily cost is within half a cent of 8·energy. Monthly and yearly costs are exactly 30 and 365 times the rounded daily cost, so the monthly figure can be off by up to 0.15 from 30·8·energy. |
| LightCalUi.GetEnergyTips | light_cal_ui.py:136-160 | Exactly one list per band: the six high-usage tips above 15, the three "good" tips in (10, 15], the three "excellent" tips at 10 or below. Six tips iff above 15. Never empty. |
| LightCalUi.NonZeroIndices | light_cal_ui.py:329 | Every kept index is in range and has positive energy. |
| LightCalUi.NonZeroIndicesComplete | light_cal_ui.py:329 | Every index with positive energy is kept. |
| LightCalUi.NonZeroIndicesIncreasing | light_cal_ui.py:329 | Kept indices are strictly increasing, i.e. in original order. |
| LightCalUi.FilteredBreakdown | light_cal_ui.py:329-331 | Names and energies stay aligned. The j-th kept pair is the name and energy at the j-th index of NonZeroIndices, so with NonZeroIndicesComplete and NonZeroIndicesIncreasing exactly the positive entries are kept, once each, in original order. Every kept energy is positive. |
| LightCalUi.FilteredSum | light_cal_ui.py:329-331 | Dropping the zero energies of a non-negative list keeps its sum. |
| LightCalUi.BreakdownMatchesTotal | light_cal_ui.py:285-331 | The chart's bars, computed from the typed counts, sum to the dict's total iff no count was typed for an appliance answered "No". |
| LightCalUi.HistoryStats | light_cal_ui.py:405-415 | None iff there are no records. Otherwise min ≤ average ≤ max, every record's energy lies between min and max, and both extremes are attained. A missing energy field counts as 0. |
| LightCalUi.ChartWindow | light_cal_ui.py:163-169 | As written: None iff fewer than 2 records, otherwise the last min(7, n) records of the list. |
| LightCalUi.ChartWindowMissesNewest | light_cal_ui.py:163-169 | On the newest-first list the history page passes, with more than 7 records every plotted record is older than the newest. |
| LightCalUi.RecentChartWindow | light_cal_ui.py:163-169 | Corrected window: None iff fewer than 2 records. Otherwise min(7, n) records ending with the newest, in increasing time, and every record left out is older than all plotted ones. |
| LightCalUi.RecentWindowKeepsNewest | light_cal_ui.py:163-169 | On a newest-first list, every record outside the reversed first-m window is older than the window's oldest record. |
| LightCalUi.ChartWindowMembers | light_cal_ui.py:168-169 | With two or more records, a record is in the as-written window iff it is one of the last min(7, n) records of the list. |
| LightCalUi.RecentWindowMembers | light_cal_ui.py:168-169 | With two or more records, a record is in the corrected window iff it is one of the newest min(7, n) records. |
| LightCalUi.RenderHistory | light_cal_ui.py:409-468 | A notice and nothing else iff there are no records. Otherwise the summary of all records, then the error message iff the chart window holds a record without a date or an energy (the KeyError caught at the end), else the chart of exactly that window and the table. |
| LightCalUi.HistoryView | light_cal_ui.py:405-468 | `show_history` as written, charting `create_energy_chart(records)` on the newest-first list. A notice iff no records; the summary of all records otherwise. The error message iff there are at least 2 records and one of the last min(7, n) lacks a date or an energy, e.g. a profile document. Otherwise the chart is the as-written window. |
| LightCalUi.HistoryViewChart | light_cal_ui.py:163-169 | On the page as written, a chart is drawn iff there are at least 2 records. It holds exactly the last min(7, n) records in list order, all with date and energy. With more than 7 newest-first records, the newest is not in it. |
| LightCalUi.RecentHistoryView | light_cal_ui.py:405-468 | The page with the corrected window: the error message iff there are at least 2 records and one of the newest min(7, n) lacks a field. A chart, when drawn, has min(7, n) chartable records and includes the newest. |
| LightCal.Lower | light_cal.py:30 | `lower()` keeps the length and lower-cases each ASCII letter. |
| LightCal.AnswersYesExactly | light_cal.py:30-41 | The answer opens a count prompt iff it is the three letters y, e, s in any case. |
| LightCal.ShortAnswersRefuse | light_cal.py:30-41 | "y", "Y" and "yes " leave the count at 0, while "YES" is accepted. |
| LightCal.RunCalculator | light_cal.py:23-62 | Each of Ac, Fridge and Wm is the typed count if the answer is "yes", else 0. `cal_energy` equals the unrounded total `calculate_energy` would sum over the same gated counts; the `>= 0` and `> 0` guards agree. It is non-negative. The daily cost is within half a cent of 8·`cal_energy`. |
| HomeEnergy.HomeSizeLabel | f4_flat_ui.py:85-86 | Every label is four characters ending in "BHK", with the digit 1, 2 or 3 for the one-, two- and three-bedroom sizes. |
| HomeEnergy.HomeSizeLabelInjective | f4_flat_ui.py:85-86 | Distinct home sizes have distinct labels. |
| HomeEnergy.FromWidgets | f4_flat_ui.py:113-142 | A hidden slider reads as 0, a shown slider passes its value through, and slider bounds give InSliderRange. |
| HomeEnergy.FridgeFactor | f4_flat_ui.py:164-165 | The factor lies in [0.1, 0.2] and is 0.15 for any rating outside 1..5. |
| HomeEnergy.FridgeFactorDecreasing | f4_flat_ui.py:164 | A higher rating gives a strictly smaller factor. |
| SessionState.FirstIndexWithDate | f4_flat_ui.py:221-222 | None iff no entry has the date. Otherwise the index of an entry with the date such that no earlier entry has it. |
| SessionState.Upsert | f4_flat_ui.py:221-228 | If the date exists, the first such entry is replaced, the length is unchanged and every other entry is unchanged. Otherwise the entry is appended after the unchanged list. Pairwise distinct dates stay distinct. |
| SessionState.UpsertFindsSaved | f4_flat_ui.py:221-228 | After saving, the first entry with the saved date is the saved entry. |
| SessionState.UpsertIdempotent | f4_flat_ui.py:221-228 | Saving the same entry twice equals saving it once. |
| SessionState.UpsertLastWins | f4_flat_ui.py:221-228 | Saving two entries for one date equals saving only the second. |
| SessionState.UpdatedProfile | f4_flat_ui.py:89-96 | The keys are the old keys plus the six profile keys. The six get the sidebar values; every other key keeps its value. |
| SessionState.UpdatedProfileIdempotent | f4_flat_ui.py:89-96 | Re-running the sidebar update with the same values changes nothing. |
| SessionState.Session.SaveDailyConsumption | f4_flat_ui.py:199-231 | With an empty name nothing is stored and the outcome is the error. Otherwise the list becomes the upsert of the entry; "Updated" iff the date existed, "Saved" iff not. The profile is unchanged. |
| SessionState.Session.UpdateProfile | f4_flat_ui.py:89-96 | The profile becomes UpdatedProfile of the old one; the entries are unchanged. |
| SmartTracker.BaseEnergyTable | f5.py:107 | 2.4, 3.6 and 4.8 kWh for 1BHK, 2BHK and 3BHK. |
| SmartTracker.ApplianceBreakdown | f5.py:110-117 | Six values in key order. The fridge value is 24·factor when its answer is "Yes" and 0 otherwise. Within slider ranges every value is non-negative. |
| SmartTracker.EnergyFigures | f5.py:107-122 | Base from the table, appliance = sum of the breakdown, total = base + appliance, cost = 5·total, carbon = 0.82·total. Within slider ranges 2.4 ≤ total ≤ 62.44, and cost and carbon are non-negative. |
| SmartTracker.Score | f5.py:138-143 | "Efficient" iff total < 10, "Moderate" iff 10 ≤ total < 15, "High Consumption" iff total ≥ 15. |
| SmartTracker.WarningImpliesHighScore | f5.py:132-143 | The warning (total > 20) implies a "High Consumption" score. The converse fails, e.g. at 17.5. |
| SmartTracker.BaseLoadIsEfficient | f5.py:107-143 | With every appliance off, the score is "Efficient" and no warning is shown. |
| SmartTracker.ArgMaxFirst | f5.py:135 | Returns a position holding the maximum with no earlier position holding it, i.e. the first maximal key. |
| SmartTracker.MaxAppliance | f5.py:135 | The reported key has a maximal value, and every earlier key's value is strictly smaller. |
| SmartTracker.MaxApplianceTieGoesToAc | f5.py:135 | With every appliance off, the reported key is "AC". |
| SmartTracker.DailyEntry | f5.py:152-160 | The entry holds the date, name and home size, and total = base + appliance = EnergyFigures total, with cost and carbon derived from it. |
| SmartTracker.SaveDailyConsumption | f5.py:150-169 | With an empty name nothing is stored and the outcome is the error. Otherwise the list becomes the upsert of the day's entry. "Updated" iff the name is given and the date was stored, "Saved" iff the name is given and it was not; the list grows by one exactly when "Saved". The profile is unchanged. |
| SmartTracker.MonthIndicesBelow | f5.py:200-202 | Among the first n entries, exactly the positions of the month's entries, each once, in increasing order. |
| SmartTracker.MonthIndices | f5.py:200-202 | Exactly the positions of the entries in the month, each once, in increasing order. Empty iff no entry is in the month. |
| SmartTracker.MonthCostsBelow | f5.py:200-203 | One cost per month entry among the first n, in list order: the j-th cost is the cost of the j-th such entry. |
| SmartTracker.MonthCosts | f5.py:200-203 | One cost per entry of the month, in list order: as many costs as month entries, and the j-th cost is the j-th such entry's cost. Empty iff no entry is in the month. |
| SmartTracker.ProjectedBill | f5.py:200-206 | None iff no entry falls in the month. Otherwise 30 times the mean of the month's costs. |
| SmartTracker.ProjectedBillUniformDays | f5.py:203-204 | A month whose entries all cost x is projected at exactly 30·x. |
| SmartTracker.ProjectedBillBetweenDays | f5.py:203-204 | The bill lies between 30 times the cheapest and 30 times the dearest day of the month. |
| SmartTracker.ProjectedBillAfterSave | f5.py:200-206 | After saving a day, that day's month always has a projected bill. |
| FlatTracker.ComputeEnergy | f4_flat_ui.py:147-195 | The if-chain base equals the f5 table. The `+=` appliance total equals f5's breakdown sum minus the AC term when AC is "No". total = base + appliance, cost = 5·total, carbon = 0.82·total. For the form's gated inputs the total equals f5's. Within slider ranges the total is ≥ 2.4 and cost and carbon are non-negative. |
| FlatTracker.FlatEntry | f4_flat_ui.py:201-218 | The stored entry has the date and name, total = base + appliance, and cost and carbon derived from the total. |
| FlatTracker.SaveDailyConsumption | f4_flat_ui.py:199-231 | With an empty name nothing is stored and the outcome is the error. Otherwise the list becomes the upsert of the entry. "Updated" iff the name is given and the date was stored, "Saved" iff the name is given and it was not; the list grows by one exactly when "Saved". For the form's gated inputs the entry equals f5's. The profile is unchanged. |
| Numerics.Round2 | day2/main.py:76-81 | `round(x, 2)` lies within half a cent of x and keeps non-negative values non-negative. |
| Numerics.Round0 | ml_imageUpload.py:57 | `round(x)` is an integer within one half of x. |
| Numerics.Trunc | ml_imageUpload.py:81-82 | `int(x)` truncates toward zero. |
| Numerics.MeanWithinExtremes | light_cal_ui.py:413-415 | The mean of a non-empty list lies between its minimum and maximum. |
| SolarDataset.StoredNear | day2/main.py:67-81 | A stored feature is within its interval widened by 0.005, and the stored `kwh` is within 0.005 of the formula. |
| SolarDataset.MonthLabels | day2/main.py:65-83 | The month column has exactly the table's total number of days. |
| SolarDataset.MonthLabelsPrefix | day2/main.py:65-66 | The labels of the first j months are a prefix of all labels. |
| SolarDataset.MonthLabelAt | day2/main.py:65-83 | Day d of month m sits at position (days of earlier months) + d and carries month m's name. |
| SolarDataset.GenerateByMonth | day2/main.py:63-85 | One record per day, Σdays in all. Record k holds the rounded sample k, the rounded formula of the unrounded sample k, the season label and the k-th month label, and lies within its intervals ± rounding. |
| Day2Main.SeasonFormulasShape | day2/main.py:56-131 | In each season the tilt term is symmetric about 30° and never raises the yield. The yield rises with irradiance and falls with humidity. |
| Day2Main.TiltTermLipschitz | day2/main.py:61 | Moving the tilt changes the penalty's distance term by at most the move. |
| Day2Main.RecomputedKwhTolerance | day2/main.py:73-81 | Recomputing `kwh` from the rounded features stays within 0.00725 (summer), 0.007125 (winter) or 0.00675 (monsoon) of the stored value. |
| Day2Main.RecomputedKwhCanDiffer | day2/main.py:73-81 | The tolerance is needed: a summer sample whose stored `kwh` differs from the recomputed one. Neither unrounded value is a half-cent tie, so this holds under Python's half-even rounding too. |
| Day2Main.GenerateSummerDataByMonth | day2/main.py:63-85 | Σdays records, each with the summer formula, label "summer" and its month label, and features within the summer ranges ± rounding. |
| Day2Main.GanerateWinterDataBtMonth | day2/main.py:97-121 | The same with the 0.25 winter formula and label "winter". |
| Day2Main.GenerateMonsoonDataByMonth | day2/main.py:133-155 | The same with the monsoon formula and label "monsoon". |
| Day2Main.MonthTablesLayout | day2/main.py:33-52 | The tables ask for 122, 120 and 123 days. Their month columns are the months' names repeated for their day counts, in table order. |
| Day2Main.FourMonthLayout | day2/main.py:65-66 | A four-month table's days are the sum of its four counts, and its labels are the four blocks in order. |
| Day2Main.SeasonBoundaryLabels | day2/main.py:33-52 | Totals 122/120/123. First and last labels March/June, November/February, July/October. |
| Day2Main.FeatureRangesLookup | day2/main.py:5-31 | Each season's key is present and maps to that season's intervals. |
| Day2Main.GenerateSeasons | day2/main.py:162-170 | The three outputs have 122, 120 and 123 rows, each with its season label and the right first and last month. |
| Day2Main.BuildAllSeasons | day2/main.py:162-177 | The concatenation has 365 rows: summer at 0..121, winter at 122..241, monsoon at 242..364, each block starting and ending with its season's first and last months. |
| Day2Main.ConcatenatedSeasons | day2/main.py:177 | The concatenation's three slices are the three inputs in order, with season labels by index range. |
| Day2Main.SeasonColumn | day2/main.py:82-83 | Every stored record carries the generator's season. The first and last records carry the table's first and last month. |
| Day2RandomData.SameAsThreeSeasonScript | day2/random_Data.py:5-30 | Same summer formula, ranges and month table as the three-season script, hence 122 records from March to June. |
| Day2RandomData.GenerateSummerDataByMonth | day2/random_Data.py:32-54 | Σdays records with the summer formula, label "summer", month labels in table order, and features within ranges ± rounding. |
| Day2RandomWinter.SameAsThreeSeasonScript | day2/random_winter.py:5-24 | Same 0.25 winter formula, ranges and month table as the three-season script, hence 120 records from November to February. |
| Day2RandomWinter.GanerateWinterDataBtMonth | day2/random_winter.py:27-51 | Σdays records with the 0.25 winter formula, label "winter", month labels in table order, and features within ranges ± rounding. |
| Day2Monsoon.SameAsThreeSeasonScript | day2/monsoon.py:4-27 | Same monsoon formula, ranges and month table as the three-season script, hence 123 records from July to October. |
| Day2Monsoon.GenerateMonsoonDataByMonth | day2/monsoon.py:29-51 | Σdays records with the monsoon formula, label "monsoon", month labels in table order, and features within ranges ± rounding. |
| Day2Monsoon.Run | day2/monsoon.py:54-57 | The printed count is the row count, 123. Every row is "monsoon", from July to October. |
| Day2Sir.TiltTermShape | day2/sir.py:21-26 | The 0.18 variant's tilt term never raises the yield and is symmetric about 30°. |
| Day2Sir.WinterVariantsDiffer | day2/sir.py:21-26 | On every in-range winter sample, the 0.18 variant yields more than 20 kWh less than the 0.25 variant of the three-season script. |
| Day2Sir.SameTablesAsThreeSeasonScript | day2/sir.py:3-56 | Same ranges and month table as the three-season script. The table gives 120 days, not the 31+31+28 the comment claims. |
| Day2Sir.GenerateWinterDataByMonth | day2/sir.py:28-50 | Σdays records with the 0.18 winter formula, label "winter", month labels in table order, and features within ranges ± rounding. |
| Day2Sir.Run | day2/sir.py:53-56 | The printed count is the row count, 120. Every row is "winter", from November to February. |
| LandCover.RawShares | ml_imageUpload.py:26-34 | Before rounding, each share v/Σv lies strictly between 0 and 1, and the four sum to 1. |
| LandCover.ShareOfTotal | ml_imageUpload.py:34 | A positive part of a larger positive total is a fraction strictly between 0 and 1. |
| LandCover.SimulateModel | ml_imageUpload.py:26-34 | Each returned share is within 0.0005 of v/Σv and non-negative; the four sum to within 0.002 of 1. |
| LandCover.ConfidencePercent | ml_imageUpload.py:49-57 | The stored confidence is within one half of 100 times some share, and above 100·share − 0.5 for every share. |
| LandCover.RawShareAtMostTwoThirds | ml_imageUpload.py:28-34 | No raw share exceeds 2/3 for in-range draws. |
| LandCover.ConfidenceBounds | ml_imageUpload.py:26-57 | The stored confidence of a simulated analysis is between 25 and 67. |
| LandCover.EnvironmentalMetrics | ml_imageUpload.py:81-84 | Vegetation and water are the truncated percentages. Deforestation is within 0.05 of (0.3 − green)·10 and urban expansion within 0.05 of (1 − green − water)·2. |
| LandCover.AlertConditions | ml_imageUpload.py:81-99 | Low-vegetation alert iff green < 0.5, limited-water alert iff water < 0.3. For green ≥ 0, deforestation ≤ 3.05, so the deforestation alert (> 5) never fires. |
| LandCover.AnalysisHistory.AnalyzeImage | ml_imageUpload.py:46-99 | Appends exactly one entry holding the predictions and the rounded max-share percentage, which lies in 25..67. Metrics and alerts are those of the predictions, and no deforestation alert fires. |
| LandCover.DashboardView | ml_imageUpload.py:104-109 | The last min(5, n) entries, newest first. |
| LandCover.DashboardShowsNewest | ml_imageUpload.py:53-105 | Right after an analysis the dashboard leads with it and shows min(5, n+1) entries. |
| LandCover.InsightsSummary | ml_imageUpload.py:116-121 | None iff the history is empty. Otherwise the count of analyses and the means of the green shares, the water shares and the per-entry deforestation terms (0.3 − green)·10; by linearity the average deforestation equals (0.3 − average green)·10. |
| LandCover.InsightsWithinShares | ml_imageUpload.py:119-121 | For shares in [0, 1], the averages lie in [0, 1] and the average deforestation in [−7, 3]. |

## Left out

- Streamlit layout, CSS, metric display, expanders and download buttons: presentation only. Widget values are method parameters.
- MongoDB connection, insert and find (`light_cal_ui.py`, `light_cal.py`): external I/O. A fetched history is a `seq<Record>` already sorted by timestamp.
- Plotting (matplotlib, plotly, seaborn): presentation only.
- pandas (DataFrame building, `sort_values`, `groupby`, CSV and Excel export): tables are `seq`s of records. f5's summary figures and weekly analysis over the DataFrame (mean, sum, last 5, the `len(df) >= 7` block) are not modelled; the projected bill is.
- scikit-learn training and evaluation in `day2/main.py` and `day2/sir.py`: foreign numeric libraries.
- `np.random.uniform` and `random.uniform`: the draws are parameters with in-range preconditions.
- Binary floating point: quantities are exact reals.
- Numerics.Round2: rounds exact ties up, where Python's `round` rounds them to even; on a tie Python's result can sit exactly at `x - 0.005`, which the strict lower bound excludes.
- Numerics.Round0: rounds an exact half up, where Python rounds it to the even integer; the strict lower bound `x - 0.5 < n` fails for Python's result on such a tie.
- LightCalUi.Record: a document without a timestamp (the profile documents of `light_cal.py:14-21` and `light_cal.py:85-92`) is sorted last by MongoDB's descending sort; the model gives every record an integer timestamp, so such a document is one with a timestamp below all others.
- LightCalUi.HistoryView: `datetime.strptime` raising ValueError on a malformed date string is not modelled; a present date is taken to parse.
- `datetime.now()`, `date.today()` and date formatting: dates and timestamps are parameters. "The current month" is the year and month passed to `SmartTracker.ProjectedBill`.
- `light_cal_ui.py:281-283`, the check that all profile fields are filled before calculating: the model starts at the dict built after that check.
- `light_cal.py` console prompts and `int(input())` parsing errors: typed values arrive as integers.
- LightCal.Lower: lower-cases ASCII letters only; Unicode case mapping is not modelled.
- FlatTracker.ComputeEnergy: the `base_energy = 0` fall-through for an unknown home size cannot happen with the three-option select box, so the home size is a three-valued datatype.
- Day2Sir.Run: `day2/sir.py:50` returns `pd.DataFrame(data)` but `pandas` is imported only at line 106, so the top-level call at line 53 stops with a NameError. The top level from line 57 on also uses `df_summer` and `df_monsoon`, which it never defines. Day2Sir.Run models the evident intent of lines 53-56; the rest of the top level is not part of this model.
- Day2Main.BuildAllSeasons: states row counts, season blocks and boundary months of the concatenation. The per-record formula and range facts are stated on the three generators.
- Day2Main.GenerateSeasons: states row counts, season labels and boundary months. The per-record facts are on the generators it calls.
- `s1.py`: a widget demo whose only computation is a date subtraction; it is not part of this model.

## Findings

| source | as written | input that shows it | evidently intended | confidence | as-written member | corrected member |
|---|---|---|---|---|---|---|
| light_cal_ui.py:168 (with 405, 432) | The chart plots `data[-7:]` ("Last 7 entries"), but the history page passes the records sorted newest first, so it plots the seven oldest records. | Any history of 8 or more records with distinct timestamps: the newest record is not in the plotted window. | Plot the seven newest records, oldest to newest. | not executed | LightCalUi.HistoryView, LightCalUi.HistoryViewChart | LightCalUi.RecentHistoryView, LightCalUi.RecentChartWindow |
