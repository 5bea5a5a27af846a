# Bike Sharing Dashboard — filter-and-aggregate pipeline in Dafny

The dashboard reads two tables of bike-sharing records. The day table has one
row per calendar day: date, season code and the `cnt`, `registered` and
`casual` ride counts. The hour table has one row per hour: date, hour of
day, weekday, weather code and `cnt`. The sidebar holds three controls:

- an inclusive date range, initially the full span of the day table;
- a weather multiselect, which acts on the hour table only;
- a season multiselect, which acts on the day table only.

An empty multiselect means "no filter". The filtered tables feed several
outputs. The summary tiles show the three totals and the mean daily rides.
The hourly heat map shows the mean rides per (hour, weekday) cell. The
peak-hour insight reports the most frequent weekday peak hour and the mean
of the weekday maxima. There are also per-weather and per-season means, and
three narrative messages, each chosen by a threshold predicate.

This project models that pipeline as pure functions over sequences of
records, and proves properties about them:

- Dates are day ordinals (`int`), counts are `nat`, and means are `real`.
- A pandas NaN on an empty group is `None`.
- Weather and season codes are the subtype `Code` (1..4). Hours are `Hour`
  (0..23) and weekdays are `Weekday` (0..6).

Files and their modules:

- `wrappers.dfy` — `Option`.
- `seqs.dfy` — the generic pandas operations: boolean-mask selection
  (`Filter`), column sums, column means, and first index of the maximum
  (`FirstArgMax`, i.e. `idxmax`).
- `records.dfy` — the two record types and the label/code maps.
- `filters.dfy` — the date bounds, the three filters and their composition.
- `metrics.dfy` — the summary metrics and the narrative predicates.
- `insights.dfy` — the per-weather and per-season means.
- `hourly.dfy` — the (hour, weekday) mean table, the weekday peaks, the mode
  and the peak-hour report.
- `scenarios.dfy` — small concrete inputs, one of them a tie.

How the model reads the pandas semantics:

- **Group-by.** `groupby(...).mean().unstack()` creates a cell only for a
  pair that occurs. A missing pair is NaN in the unstacked frame, never 0.
- **Peak hour.** The group keys are sorted, so `idxmax` down a weekday column
  returns the smallest hour that holds the maximum. `max` skips NaN.
- **Mode.** `mode()` returns its values sorted, so `mode()[0]` is the
  smallest of the tied most-frequent hours.
- **Trend message.** The comparison `total_rides > avg_daily_rides *
  len(filtered_day_df)` is never true under exact arithmetic, because the
  mean times the count is the total. When no day row is left, the mean is
  NaN and the comparison is false. Either way the "lower than average"
  message is chosen (`Metrics.TakeawaysOf`).
- **Empty hour table.** `peak_hours.mode()` is then empty, and
  `peak_hours.mode()[0]` raises. The model reports the missing hour as `None`
  instead (`Hourly.PeakInsight`), with `None` for the NaN `peak_usage`.

## Model

| member | source | states |
|---|---|---|
| Seqs.Filter | dashboard/dashboard.py:41-51 | a boolean-mask selection keeps exactly the rows passing the mask, never more rows than the input |
| Seqs.FilterCounts | dashboard/dashboard.py:41-51 | a selection holds each passing row as often as the input does, and no failing row |
| Seqs.FilterIsSubsequence | dashboard/dashboard.py:41-51 | a selection is a subsequence of its input, so the original row order is kept |
| Seqs.FilterKeepsAll | dashboard/dashboard.py:41-51 | a mask every row passes returns the table unchanged |
| Seqs.FilterExtensional | dashboard/dashboard.py:41-51 | two masks that agree on every row select the same rows |
| Seqs.FilterOfFilter | dashboard/dashboard.py:45-51 | selecting by one mask and then by a second equals selecting once by their conjunction |
| Seqs.Sum | dashboard/dashboard.py:54-57 | the column sum of a table with no rows is 0 |
| Seqs.NonNegativeSum | dashboard/dashboard.py:54-57 | a column whose every row is non-negative has a non-negative sum |
| Seqs.SumBoundsEachTerm | dashboard/dashboard.py:54-57 | in a non-negative column, no row's value exceeds the column sum |
| Seqs.SumAppend | dashboard/dashboard.py:54 | a column sum over two stacked tables is the sum of the two column sums |
| Seqs.SumSplit | dashboard/dashboard.py:54-57 | summing a column that is the sum of two columns gives the sum of the two column sums |
| Seqs.SumFilterMonotone | dashboard/dashboard.py:54-57 | for a non-negative column, a wider mask never selects a smaller sum |
| Seqs.RealSumOfInts | dashboard/dashboard.py:55 | summing an integer column as reals gives the integer sum |
| Seqs.Mean | dashboard/dashboard.py:55 | the mean is NaN exactly on an empty table; otherwise the mean times the row count is the column sum |
| Seqs.RealSumBounds | dashboard/dashboard.py:55 | a sum of n values in [lo, hi] lies in [n*lo, n*hi] |
| Seqs.MeanBetween | dashboard/dashboard.py:55 | the mean of values in [lo, hi] lies in [lo, hi] |
| Seqs.FirstArgMax | dashboard/dashboard.py:150 | `idxmax` over a column with NaN entries: `None` exactly when every entry is NaN; otherwise a non-NaN position whose value is at least every other value and strictly above every value before it |
| Records.WeatherOfCode | dashboard/dashboard.py:46 | decoding a weather code gives the label that `weather_map` sends to that code (Clear=1, Misty=2, Light Rain=3, Heavy Rain=4) |
| Records.WeatherCodeRoundTrip | dashboard/dashboard.py:46 | encoding a weather label and decoding the code gives the label back |
| Records.WeatherCodeBijective | dashboard/dashboard.py:46 | `weather_map` sends a label to a code exactly when decoding that code gives the label, so the four labels and the codes 1..4 are paired one-to-one |
| Records.SeasonOfCode | dashboard/dashboard.py:50 | decoding a season code gives the label that `season_map` sends to that code (Spring=1, Summer=2, Fall=3, Winter=4) |
| Records.SeasonCodeRoundTrip | dashboard/dashboard.py:50 | encoding a season label and decoding the code gives the label back |
| Records.SeasonCodeBijective | dashboard/dashboard.py:50 | `season_map` sends a label to a code exactly when decoding that code gives the label, so the four labels and the codes 1..4 are paired one-to-one |
| Records.WeatherCodes | dashboard/dashboard.py:46-47 | the `isin` code list holds a code exactly when that code's label is selected; every code is in 1..4 |
| Records.SeasonCodes | dashboard/dashboard.py:50-51 | the `isin` code list holds a code exactly when that code's label is selected; every code is in 1..4 |
| Filters.MinDate | dashboard/dashboard.py:18 | `None` exactly on an empty day table; otherwise a date that occurs and is at most every date |
| Filters.MaxDate | dashboard/dashboard.py:19 | `None` exactly on an empty day table; otherwise a date that occurs and is at least every date |
| Filters.DefaultCriteria | dashboard/dashboard.py:18-27 | the initial sidebar state exists exactly when the day table is non-empty; both selections are empty; every day lies in the range; both endpoints are dates that occur |
| Filters.DaysInRange | dashboard/dashboard.py:41 | a day row is kept exactly when `start <= dteday <= end`, inclusive at both ends |
| Filters.HoursInRange | dashboard/dashboard.py:42 | an hour row is kept exactly when `start <= dteday <= end`, with the same bounds as the day table |
| Filters.DaysAllInRange | dashboard/dashboard.py:41 | a date range that holds every day's date keeps the whole day table |
| Filters.HoursAllInRange | dashboard/dashboard.py:42 | a date range that holds every hour row's date keeps the whole hour table |
| Filters.FilterWeather | dashboard/dashboard.py:45-47 | an empty selection returns the hour rows unchanged; otherwise a row is kept exactly when the label of its `weathersit` is selected |
| Filters.FilterSeason | dashboard/dashboard.py:49-51 | an empty selection returns the day rows unchanged; otherwise a row is kept exactly when the label of its `season` is selected |
| Filters.Apply | dashboard/dashboard.py:41-51 | a day row survives exactly when it is in range and (no season is selected or its season is selected); an hour row survives exactly when it is in range and (no weather is selected or its weather is selected) |
| Filters.ApplyIsSingleMask | dashboard/dashboard.py:41-51 | the staged, conditionally rebound filters equal one combined mask per table |
| Filters.ApplyKeepsExactlyMatchingRows | dashboard/dashboard.py:41-51 | each filtered table is a subsequence of its input and holds every matching row as often as the input does, and no other row |
| Filters.ApplyIdempotent | dashboard/dashboard.py:41-51 | filtering the filtered tables again with the same sidebar state changes nothing |
| Filters.SelectionsActOnOneTableEach | dashboard/dashboard.py:45-51 | changing the weather selection leaves the filtered day table unchanged, and changing the season selection leaves the filtered hour table unchanged |
| Filters.DefaultCriteriaKeepsEverything | dashboard/dashboard.py:18-51 | with the initial sidebar state the filtered day table is the day table, and the hour table is unchanged when all its dates lie within the day table's span |
| Filters.AllWeatherSelected | dashboard/dashboard.py:45-47 | selecting all four weather labels drops no hour row |
| Filters.AllSeasonsSelected | dashboard/dashboard.py:49-51 | selecting all four season labels drops no day row |
| Metrics.Summarize | dashboard/dashboard.py:54-57 | the three totals are non-negative and 0 on an empty table; the mean is NaN exactly on an empty table, and otherwise the mean times the day count is the total |
| Metrics.TotalsAreColumnSums | dashboard/dashboard.py:54-57 | a single day's totals are its own counts, and the totals of two stacked tables add up |
| Metrics.ConsistentTotals | dashboard/dashboard.py:54-57 | when every day has `cnt == registered + casual`, the total rides equal total registered plus total casual |
| Metrics.WiderFilterNeverLowersTotals | dashboard/dashboard.py:41-57 | widening the date range, or moving from some seasons to a superset or to none, never lowers any of the three totals |
| Metrics.Narrate | dashboard/dashboard.py:125-168 | for any summary: the high-usage message exactly when the total exceeds 10000; the "higher than average" message exactly when the mean is a number and the total strictly exceeds mean times day count (a NaN mean compares false); the subscription message exactly when registered strictly exceeds casual |
| Metrics.TakeawaysOf | dashboard/dashboard.py:125-168 | the high-usage message is chosen exactly when the total exceeds 10000; the subscription message exactly when registered strictly exceeds casual, so a tie chooses the casual message; the "higher than average" message is never chosen |
| Metrics.HighUsageSurvivesWiderFilter | dashboard/dashboard.py:125 | once the high-usage message is chosen, widening the filter keeps it |
| Insights.WeatherMean | dashboard/dashboard.py:144 | the mean hourly rides under one weather label are NaN exactly when no hour row has that weather; otherwise they are the sum of `cnt` over the rows whose `weathersit` is the label's code, divided by the number of those rows |
| Insights.SeasonMean | dashboard/dashboard.py:158 | the mean daily rides in one season are NaN exactly when no day row has that season; otherwise they are the sum of `cnt` over the rows whose `season` is the label's code, divided by the number of those rows |
| Insights.WeatherMeans | dashboard/dashboard.py:142-144 | one mean per selected weather label, in selection order, entry `i` being the mean for the `i`-th label (NaN exactly when no row has that weather) |
| Insights.SeasonMeans | dashboard/dashboard.py:156-159 | one mean per selected season label, in selection order, entry `i` being the mean for the `i`-th label (NaN exactly when no row has that season) |
| Insights.WeatherMeanIgnoresWeatherFilter | dashboard/dashboard.py:144 | for a selected label, the mean over the weather-filtered table equals the mean over the date-filtered table |
| Insights.SeasonMeanIgnoresSeasonFilter | dashboard/dashboard.py:158 | for a selected label, the mean over the season-filtered table equals the mean over the date-filtered table |
| Hourly.CellsOccur | dashboard/dashboard.py:100 | a group key occurs exactly when some hour row has that (hour, weekday) pair |
| Hourly.CellNonEmpty | dashboard/dashboard.py:100 | every occurring group has at least one row |
| Hourly.CellMean | dashboard/dashboard.py:100 | the group of an occurring (hour, weekday) pair is non-empty, and its mean is the sum of `cnt` over the group divided by the group's size |
| Hourly.HourlyTable | dashboard/dashboard.py:100 | the table has a cell exactly for the (hour, weekday) pairs of some row, with no zero-filled cells, and keys in 0..23 × 0..6 |
| Hourly.HourlyTableCellMeans | dashboard/dashboard.py:100 | every cell's group is non-empty, and the cell is the sum of `cnt` over the group divided by the group's size |
| Hourly.PeakOf | dashboard/dashboard.py:150-151 | a weekday has a peak exactly when its column has a cell; the peak belongs to that weekday |
| Hourly.PeakIsFirstMaximum | dashboard/dashboard.py:150-151 | the peak hour is a cell of the column; its usage is that cell's value and is at least every cell in the column, and strictly above every cell at a smaller hour |
| Hourly.PeaksFromSound | dashboard/dashboard.py:150-151 | every peak listed from a weekday on is the one at its own weekday's position, at or after that weekday, in strictly ascending weekday order |
| Hourly.PeaksFromHead | dashboard/dashboard.py:150-151 | a weekday that has a peak heads the list of peaks from that weekday on |
| Hourly.PeaksFromSkip | dashboard/dashboard.py:150-151 | a weekday without a peak adds nothing to the list of peaks from that weekday on |
| Hourly.PeakListed | dashboard/dashboard.py:150-151 | a weekday that has a peak appears in the list of peaks from any earlier or equal weekday on |
| Hourly.PeaksFromComplete | dashboard/dashboard.py:150-151 | a weekday at or after the starting one is listed exactly when it has a peak |
| Hourly.NoPeakListed | dashboard/dashboard.py:150-151 | where no weekday has a peak, none is listed |
| Hourly.AscendingPeaksFit | dashboard/dashboard.py:150-151 | peaks in strictly ascending weekday order within `[lo, hi)` number at most `hi - lo` |
| Hourly.WeekdayPeaks | dashboard/dashboard.py:150-151 | seven entries, entry `d` being weekday `d`'s peak, if any, and belonging to weekday `d` |
| Hourly.Peaks | dashboard/dashboard.py:150-151 | one peak per weekday that has a column, and none for the others, in ascending weekday order; `peak_hours` is the hours of these peaks, in weekday order |
| Hourly.PeaksAtMostSeven | dashboard/dashboard.py:150-151 | the peak series has at most seven entries, one per weekday column |
| Hourly.Mode | dashboard/dashboard.py:152 | `mode()[0]`: `None` exactly on an empty series; otherwise an hour that occurs, whose count is maximal, and strictly above the count of every smaller hour |
| Hourly.PeaksExistIffRows | dashboard/dashboard.py:150 | there is no weekday peak exactly when no hour row is left |
| Hourly.RowGivesPeak | dashboard/dashboard.py:150 | a non-empty hour table has at least one weekday peak |
| Hourly.NoRowNoPeak | dashboard/dashboard.py:150 | an empty mean table has no peaks |
| Hourly.ReportOf | dashboard/dashboard.py:150-152 | the hour and the usage are each missing exactly when there is no weekday peak |
| Hourly.ReportedHourIsModal | dashboard/dashboard.py:150-152 | with at least one peak, the reported hour is one of the peak hours, occurs at least as often as every other hour among them, and strictly more often than every smaller hour |
| Hourly.ReportedUsageIsMeanOfMaxima | dashboard/dashboard.py:151 | with at least one peak, the reported usage is the sum of the weekday maxima divided by the number of weekdays that have a column |
| Hourly.PeakInsight | dashboard/dashboard.py:150-152 | both the hour and the usage are missing exactly when no hour row is left; otherwise the report is the one drawn from the table's weekday peaks |
| Hourly.CellWithinCounts | dashboard/dashboard.py:100 | every cell mean lies within the range of the hourly `cnt` values |
| Hourly.PeakUsageWithinCounts | dashboard/dashboard.py:151 | on a non-empty hour table, `peak_usage` exists and lies within the range of the hourly `cnt` values |
| Scenarios.SingleDaySummary | dashboard/dashboard.py:41-57 | one day of 100 rides (80 registered, 20 casual), filtered to that day, gives the tiles 100, 100.0, 80 and 20 |
| Scenarios.FilterKeepsAllDays | dashboard/dashboard.py:41 | a range of a single day keeps every row dated that day |
| Scenarios.MondayRowsGroups | dashboard/dashboard.py:100 | three Monday rows fall into the groups (8, 1), of two rows, and (17, 1), of one row |
| Scenarios.MondayMorningCell | dashboard/dashboard.py:100 | the (8, 1) cell of those rows is the mean of 50 and 70, i.e. 60 |
| Scenarios.MondayEveningCell | dashboard/dashboard.py:100 | the (17, 1) cell of those rows is 30 |
| Scenarios.MondayRowsKeys | dashboard/dashboard.py:100 | the mean table of those rows has cells for (8, 1) and (17, 1) and no other pair |
| Scenarios.MondayRowsTable | dashboard/dashboard.py:100 | the mean table of those rows holds exactly the cells (8, 1) = 60 and (17, 1) = 30 |
| Scenarios.MondayWeekdayPeaks | dashboard/dashboard.py:150-151 | in such a table only Monday has a peak: 08:00 with 60 rides |
| Scenarios.OnePeakListed | dashboard/dashboard.py:150-151 | a single peak on Monday is listed alone |
| Scenarios.MondayTablePeaks | dashboard/dashboard.py:150-151 | such a table has a single peak: Monday at 08:00 with 60 rides |
| Scenarios.MondayReport | dashboard/dashboard.py:152 | from that single peak the report is hour 8 with usage 60 |
| Scenarios.MondayRowsInsight | dashboard/dashboard.py:150-152 | the insight on those rows reports hour 8 with a peak usage of 60 |
| Scenarios.TiedColumnPeaks | dashboard/dashboard.py:150 | a Monday column tied at 08:00 and 17:00 peaks at 8, the smaller hour; Sunday's single cell at 17:00 is its peak; no other weekday has one |
| Scenarios.TiedWeekdayPeaks | dashboard/dashboard.py:150-151 | the seven weekday entries of that table are Sunday at 17:00 and Monday at 08:00, both with 40 rides, and nothing else |
| Scenarios.TwoPeaksListed | dashboard/dashboard.py:150-151 | peaks on Sunday and Monday only are listed in that order |
| Scenarios.TiedModeIsSmaller | dashboard/dashboard.py:152 | the peak hours 17 and 8, equally frequent, have `mode()[0]` 8 |
| Scenarios.TiesGoToTheSmallerHour | dashboard/dashboard.py:150-152 | for a column tie at 8 and 17, `idxmax` picks 8; for the two equally frequent peak hours 17 and 8, `mode()[0]` picks 8 |

## Left out

- CSV loading and date parsing (`dashboard/dashboard.py:10-15, 37-38`) are
  file I/O and library parsing. Dates are integer day ordinals, and both
  tables are parameters.
- The Streamlit sidebar widgets, metric tiles, headers, `st.write` text and
  caption are user-interface output. Only the predicates that choose each
  message are modelled. The per-label loops at lines 143 and 157 only emit
  text; they are modelled as the sequences of means they print.
- `st.date_input` returning a single date while the user is mid-selection
  makes the tuple unpacking at line 25 fail. The model always has both ends
  of a range.
- The matplotlib/seaborn charts (lines 73-121) are rendering through
  libraries that are not part of this model. This includes the per-category
  aggregation inside `sns.barplot`.
- The unused `babel` import and the global `sns.set` styling have no
  behaviour to model.
- Floating point is not modelled: means are exact `real` values. This
  leaves out the rounding in `round(avg_daily_rides, 2)` and the `:.2f`
  formats. It also leaves out any float rounding that could, in the source,
  make the comparison at line 135 true.
- Metrics.TakeawaysOf: states the line-135 branch under exact arithmetic
  only. Under float arithmetic `avg * n` may differ from the total, and
  this branch is not modelled.
- Hourly.PeakInsight: on an empty filtered hour table the source raises at
  `peak_hours.mode()[0]` (line 152). The model reports `None` for the hour
  instead of an exception.
- Seqs.Sum: integers are unbounded, so the int64 wrap-around of pandas
  `.sum()` at lines 54, 56 and 57 is not modelled. The counts are daily and
  hourly ride counts of one bike-share system over two years, whose sums
  are many orders of magnitude below 2^63.
- Filters.DefaultCriteria: also Filters.MinDate and Filters.MaxDate. On an
  empty day table they return `None`. This is the model's own choice: the
  source has no guard at lines 18-27, where `min()` and `max()` give NaT
  and the NaT bounds flow into `st.date_input`.
- Records: codes outside 1..4, hours outside 0..23, weekdays outside 0..6
  and negative counts are excluded by the record types, because the
  dataset never holds them. In the source such a row would be dropped by a
  non-empty selection, but under an empty selection it would pass the
  filter and enter the totals, the means and the hourly table.
- pandas index labels: the filtered tables keep their rows' original index
  labels in the source. The model keeps the rows in order but does not
  carry the labels, which no output reads.
