# Carbon footprint tracker: emissions engine

This project models the emissions engine of `CarbonFootprintTracker` in
`carbon_tracker.py` and proves properties about it:

- **Factor table.** There are four usage categories: electricity, transportation,
  heating and waste. Each has a fixed factor in kg CO2 per unit: 0.4 per kWh,
  0.2 per km, 0.2 per m3 of gas and 0.5 per kg.
- **`add_entry`.** It converts each raw input by its factor and sums the four
  emissions into the entry total. It appends the entry record to the tracker's
  in-memory log (`data`) and returns it.
- **`get_summary`.** It sorts the log by date. It then reports the total, the
  mean per entry, the dates of the highest and lowest entry totals, and the
  number of entries. An empty log gives the marker "No data available".
- **`get_recommendations`.** It picks the category with the largest mean emission
  per entry and returns that category's fixed three-item advice list. An empty
  log gives the marker "No data available for recommendations".

Layout, one module per component:

- `emissions.dfy` (`Emissions`): the categories, the factor table, the `Entry`
  record, the entry invariant `WellFormed` and `BuildEntry`.
- `tracker.dfy` (`Tracking`): the `CarbonFootprintTracker` class. Its `data`
  field is a `seq<Entry>` that `AddEntry` extends in place.
- `aggregates.dfy` (`Aggregates`): column sums, the fact that a sum does not
  depend on row order, and the first position of a column's largest or
  smallest value. These give the meaning of the data
  frame's `sum`, `idxmax`, `idxmin` and `nlargest(1)`.
- `summary.dfy` (`Summaries`): `get_summary` as the pure function `Summarize`
  over the log, with the lemmas about it.
- `recommendations.dfy` (`Recommendations`): `get_recommendations` as the pure
  function `Recommend` over the log, with the lemmas about it.

A tracker's `get_summary()` is `Summarize(tracker.data)`, and its
`get_recommendations()` is `Recommend(tracker.data)`. Neither operation changes
the tracker, so both are functions of the log.

Modelling choices:

- Dates are a `Day`: an ordinal day number where a later day is larger. The
  source parses the stored `YYYY-MM-DD` string with `pd.to_datetime` and formats
  it back with `strftime`. For well-formed dates this is the identity, so only
  the order of dates matters.
- Python floats are Dafny `real`, so the arithmetic is exact.
- The date sort is an insertion sort. The source's `sort_values` uses an
  unstable sort by default, so `SortByDate` promises nothing about the order of
  entries that share a date. `HighestDayUnique`, `LowestDayUnique` and
  `SummaryIgnoresEntryOrder` show that no reported value depends on that order.
- Highest and lowest day follow the code. The idxmax/idxmin scan runs on the
  date-sorted frame, so when several entries share the extreme total, the
  reported day is the earliest of their dates. It is not the first such entry
  in logging order.
- Category means use only the four emission columns. Ties go to the first
  category in the declared column order (electricity, transportation, heating,
  waste), which is how `nlargest(1)` breaks ties.

## Model

| member | source | states |
|---|---|---|
| Emissions.Factor | carbon_tracker.py:12-17 | Every category's factor is a positive number of kg CO2 per unit. |
| Emissions.Rank | carbon_tracker.py:35-40 | Each category has one position in the declared column order (electricity, transportation, heating, waste). |
| Emissions.BuildEntry | carbon_tracker.py:31-55 | The entry has the given date and holds exactly the four arguments as inputs. Each category's emission is its input times its factor. The total sums the four emissions, each exactly once. Negative inputs are accepted and scale linearly. |
| Emissions.EntryTotalIsWeightedSum | carbon_tracker.py:35-43 | The total of any entry meeting the invariant is 0.4·electricity + 0.2·transportation + 0.2·heating + 0.5·waste of its inputs. |
| Tracking.CarbonFootprintTracker.constructor | carbon_tracker.py:7-9 | The log starts as the list the persistence layer loaded. The tracker invariant holds exactly when every loaded entry meets the entry invariant. |
| Tracking.CarbonFootprintTracker.AddEntry | carbon_tracker.py:30-59 | Appends exactly one entry at the end of the log. Earlier entries are unchanged. It returns the entry it appended. That entry has the given date and inputs and meets the entry invariant. If every logged entry met the invariant before the call, every entry still does. |
| Aggregates.ColumnSumIgnoresOrder | carbon_tracker.py:78-79 | Two frames that hold the same rows, in any order, have the same column sum, so the row order never changes a sum or a mean. |
| Aggregates.IndexOfFirstMax | carbon_tracker.py:80 | The position holds the column's largest value, and every earlier value is strictly smaller. This is the first maximum, as idxmax and nlargest(1) choose. |
| Aggregates.IndexOfFirstMin | carbon_tracker.py:81 | The position holds the column's smallest value, and every earlier value is strictly larger. This is the first minimum, as idxmin chooses. |
| Summaries.InsertByDate | carbon_tracker.py:75 | Inserting into a date-sorted log keeps it sorted and adds exactly that one entry. |
| Summaries.SortByDate | carbon_tracker.py:74-75 | The result is ordered by date and holds exactly the same entries (a permutation). |
| Summaries.Summarize | carbon_tracker.py:61-85 | Gives the "No data available" marker exactly when the log is empty, and a summary otherwise. |
| Summaries.SortKeepsTotal | carbon_tracker.py:75-78 | Sorting the frame by date does not change the sum of the entry totals. |
| Summaries.SummaryFigures | carbon_tracker.py:77-83 | For a non-empty log, the total is the sum of the entry totals in logging order. The count is the number of entries. The mean is total / count, counting entries, not distinct days. |
| Summaries.SummaryAfterAppend | carbon_tracker.py:57-83 | After one more entry is appended, the summary total grows by that entry's total and the count grows by one. |
| Summaries.EarliestPeakOfSorted | carbon_tracker.py:75-80 | In a date-sorted frame that holds the log's entries, the first position with the largest total (the one idxmax picks) holds the earliest date among the highest-total entries. |
| Summaries.EarliestTroughOfSorted | carbon_tracker.py:75-81 | In a date-sorted frame that holds the log's entries, the first position with the smallest total (the one idxmin picks) holds the earliest date among the lowest-total entries. |
| Summaries.HighestDayIsEarliestPeak | carbon_tracker.py:75-80 | The highest day is the date of an entry whose total no entry exceeds. No entry with that same total has an earlier date. |
| Summaries.LowestDayIsEarliestTrough | carbon_tracker.py:75-81 | The lowest day is the date of an entry whose total no entry undercuts. No entry with that same total has an earlier date. |
| Summaries.HighestDayUnique | carbon_tracker.py:80 | At most one day fits that description of the highest day. With HighestDayIsEarliestPeak, a non-empty log has exactly one such day, so the order of same-date entries after the sort does not affect it. |
| Summaries.LowestDayUnique | carbon_tracker.py:81 | At most one day fits that description of the lowest day. With LowestDayIsEarliestTrough, a non-empty log has exactly one such day. |
| Summaries.HighestDayIgnoresEntryOrder | carbon_tracker.py:74-80 | Two non-empty logs that hold the same entries, in any order, report the same highest day. |
| Summaries.LowestDayIgnoresEntryOrder | carbon_tracker.py:74-81 | Two non-empty logs that hold the same entries, in any order, report the same lowest day. |
| Summaries.TotalSumIgnoresOrder | carbon_tracker.py:78 | Two logs that hold the same entries, in any order, have the same sum of totals. |
| Summaries.SummaryIgnoresEntryOrder | carbon_tracker.py:65-83 | Two logs that hold the same entries, in any order, get the same summary. |
| Recommendations.AdviceFor | carbon_tracker.py:145-166 | Each category has a fixed list of exactly three pieces of advice. The strings themselves, in their declared order, are the function's definition. |
| Recommendations.Recommend | carbon_tracker.py:126-169 | Gives the "No data available for recommendations" marker exactly when the log is empty, and a list of advice otherwise. |
| Recommendations.RecommendationFollowsDominantCategory | carbon_tracker.py:139-168 | For a non-empty log, the result is exactly the advice list of a category whose mean is largest. Every category with an equal mean comes later in column order. |
| Recommendations.DominantUnique | carbon_tracker.py:143 | At most one category meets that description, so the tie-break leaves no choice. |
| Recommendations.CategoryMeanFromInputs | carbon_tracker.py:35-40 | For a log of entries that meet the entry invariant, a category's mean emission is its factor times the mean of its raw usage. |
| Recommendations.RecommendIgnoresEntryOrder | carbon_tracker.py:126-168 | Two logs that hold the same entries, in any order, get the same result: the same marker or the same advice. |

## Left out

- Loading and saving the JSON file (`_load_data`, `_save_data`, and the save call inside `add_entry`) is file I/O. The log is the sequence passed to the constructor.
- The default date from `datetime.now()` in `add_entry` reads the clock. The date is an explicit parameter of `AddEntry`. The four usage values keep their default of zero.
- `visualize_emissions` only makes plotting calls.
- The interactive `main` loop is console I/O, including its `float(input(...))` parsing.
- Date parsing and formatting (`pd.to_datetime`, `strftime`) are not modelled. Dates are ordinal days, and only their order matters.
- `df.mean()` in `get_recommendations` also sees the string `date` column. Depending on the pandas version, that column is dropped or the call raises an error. The model takes the mean over the four emission columns only.
- Entries loaded from a file whose records lack a category are not modelled: every `Entry` carries all four categories.
- Entries carrying an extra emission category cannot be expressed. In the source, such a record (for example one with `water`) adds a column to `df.mean()`. If that column has the largest mean, the lookup in `recommendations_map` raises `KeyError`. The closed `Category` type removes that error path.
- Unparseable dates cannot be expressed. `add_entry` accepts any `date` string, and one that `pd.to_datetime` cannot parse makes `get_summary` raise. A `Day` is always a valid ordinal, which removes that error path.
- IEEE float rounding: the model computes in exact real arithmetic.
- Recommendations.AdviceFor: the contract states only the length of each list. The strings and their order are fixed by the definition, not restated in the contract.
