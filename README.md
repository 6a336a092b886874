# Bike-sharing dashboard: the table transformations

This project models the data logic of a Streamlit dashboard over the two
bike-sharing tables. The daily table (`day.csv`) has one row per day. The
hourly table (`hour.csv`) has one row per day and hour. Each view of the
dashboard works on these rows in one of four ways:

- **Overview** (dashboard.py:35-37): the number of days, the number of hours,
  and the total `cnt` of the daily table.
- **Season view** (dashboard.py:50-58): the numeric `season` code is
  relabelled through the fixed map 1→Spring, 2→Summer, 3→Fall, 4→Winter. This
  overwrites the shared table's column in place. The rows of the selected
  season are kept; the selector `'All'` keeps every row. Then `cnt` is summed
  per label.
- **Casual-versus-registered view** (dashboard.py:79-86): the days in the
  closed range [start, end] are kept, and `casual`, `registered` and `cnt` are
  summed separately per month.
- **Export** (dashboard.py:105): the daily rows, then the hourly rows, are
  concatenated into one table.

A row is a `Table.Record`: a date, a season cell, a month and the three
counts. A date is an already-parsed (year, month, day), compared
lexicographically. A season cell is a `Code`, a `Label` or `Missing`; pandas
writes its NaN into the same column, and `Missing` is that NaN. The modules follow the views:

- `Table` holds the records, the column sum (`Sum`) and the boolean-mask filter (`Filter`). Every view is built from these.
- `Season` holds the relabel (as a function and as an in-place method on an array), the selector and the season group-sum.
- `Monthly` holds the date filter and the monthly group-sum.
- `Export` holds the concatenation and its inverse split.
- `Overview` holds the overview metrics and shows how the other views' totals agree with them.
- `Example` works through a two-day table.

pandas behaviour is modelled by its meaning:

- `Series.map(dict)` turns a value that is not a key into NaN. That includes a
  code outside 1..4, NaN itself, and a label already written there.
- `groupby` drops NaN keys and sorts the keys ascending. Labels sort in
  Python's string order, code point by code point, so the order is Fall,
  Spring, Summer, Winter.
- Mask filtering keeps row order.

The group-sums are built by inserting each row into a key-sorted list of
groups. Their meaning is stated by lemmas against the direct filter-then-sum.
The two group-sums keep separate group types and helpers (`Keys`, `Above`,
`Ascending`, `Lookup` and their small lemmas). The season groups are keyed by
a label string in Python's string order and hold one total. The month groups
are keyed by an integer and hold three totals. A shared module would need the
key order and the value arithmetic passed in as functions, together with
their order laws, and each view's lemmas would then have to restate them.

Three behaviours of the code the model keeps:

- The season groups come out in pandas' sorted key order, not in the order each label first occurs.
- A season code outside 1..4 raises no error. The row gets NaN and joins no season group.
- The relabel overwrites the shared table in place (line 51); it does not produce a derived copy. The model has both forms: `Season.RelabelColumn` updates an array in place and is specified by the function `Season.Relabel`.

## Model

| member | source | states |
|---|---|---|
| `Table.DateLeIsTotalOrder` | dashboard.py:16-17 | parsed dates are compared by a total order (reflexive, antisymmetric, transitive, total) |
| `Table.Filter` | dashboard.py:55 | a mask keeps exactly the rows it accepts, and never more rows than the input |
| `Table.Sum` | dashboard.py:37 | `df[c].sum()`; its contract is carried by `SumAppend`, `FilterSplitsSum` and `SumCntSplits` |
| `Table.FilterAppend` | dashboard.py:79 | mask filtering commutes with concatenation, so it keeps the input's row order |
| `Table.FilterKeepsAll` | dashboard.py:54-55 | a mask returns the whole table unchanged and in order exactly when it accepts every row |
| `Table.FilterSplitsSum` | dashboard.py:55 | the kept rows plus the dropped rows add up to the whole column: nothing lost or counted twice |
| `Table.SumAppend` | dashboard.py:37 | a column sum over a concatenation is the sum of the two parts |
| `Table.SumCntSplits` | dashboard.py:37 | on rows with `cnt == casual + registered`, the column sums keep that identity |
| `Season.SeasonLabel` | dashboard.py:50 | exactly the codes 1..4 have a label |
| `Season.SeasonCode` | dashboard.py:50 | a label stands for a code in 1..4 |
| `Season.LabelCodeInverse` | dashboard.py:50 | the label map is one-to-one: a code has a label exactly when that label reads back as that code |
| `Season.MapCell` | dashboard.py:51 | a cell ends up labelled exactly when it held a code in 1..4, with that code's label; no cell keeps a numeric code |
| `Season.Relabel` | dashboard.py:51 | the relabelled table has the same length, and each row is the input row with only its season cell mapped |
| `Season.RelabelColumn` | dashboard.py:51 | the in-place column assignment leaves the array equal to `Relabel` of its old contents |
| `Season.RelabelLabels` | dashboard.py:50-51 | a row gets a label exactly when its code is one of 1..4; any other row has none |
| `Season.RelabelTwiceErases` | dashboard.py:51 | mapping an already-relabelled column again turns every cell into NaN |
| `Season.RelabelKeepsSums` | dashboard.py:51 | relabelling changes no count column |
| `Season.RelabelFilter` | dashboard.py:51-55 | filtering the relabelled table equals relabelling the original rows that the matching mask keeps |
| `Season.SelectSeason` | dashboard.py:54-55 | with `'All'` the table is returned unchanged and in order; with any other selector, exactly the rows whose label equals it are kept |
| `Season.LexLessTransitive` | dashboard.py:58 | the string order used to sort group keys is transitive |
| `Season.LexLessTotal` | dashboard.py:58 | any two different keys are ordered one way or the other |
| `Season.LabelOrder` | dashboard.py:58 | the four labels sort as Fall, Spring, Summer, Winter |
| `Season.AddCntSpec` | dashboard.py:58 | adding a row's `cnt` to its group keeps the keys ascending, changes only that group, and raises the grand total by exactly that `cnt` |
| `Season.AddCnt` | dashboard.py:58 | one step of the season group-sum; its contract is carried by `AddCntSpec` |
| `Season.SeasonCounts` | dashboard.py:58 | `groupby('season')['cnt'].sum()`; its contract is carried by `SeasonCountsDistinct`, `SeasonCountsLookup`, `SeasonCountsTotal` and `SeasonCountsSingle` |
| `Season.SeasonCountsDistinct` | dashboard.py:58 | the season group-sum has at most one group per label, and its labels are strictly ascending |
| `Season.SeasonCountsLookup` | dashboard.py:58 | a label has a group exactly when some row carries it, and that group's total is those rows' `cnt` summed directly |
| `Season.SeasonCountsTotal` | dashboard.py:58 | the group totals add up to the `cnt` of the labelled rows |
| `Season.SeasonCountsSingle` | dashboard.py:58 | rows that all carry one label make one group holding their whole `cnt`, or no group if there are no rows |
| `Season.SeasonViewOneSeason` | dashboard.py:50-58 | for a season selector, the view is either empty or one group: that label with the `cnt` of the original rows carrying its code. It is empty when no row has that code, and for a selector that is not a label |
| `Season.SeasonViewAll` | dashboard.py:50-58 | with `'All'`, the group totals add up to the `cnt` of the rows with a known code, or the whole table's `cnt` when all codes are known |
| `Season.SeasonView` | dashboard.py:50-58 | relabel, select and group-sum; its contract is carried by `SeasonViewOneSeason`, `SeasonViewAll` and `SeasonViewIsEntryOfAll` |
| `Season.SeasonViewIsEntryOfAll` | dashboard.py:54-58 | for a season selector the view is exactly that label's entry in the `'All'` view, or empty when it has none |
| `Monthly.DateFilter` | dashboard.py:79 | a row is kept exactly when start ≤ its date ≤ end, both ends included |
| `Monthly.DateFilterEmptyWhenReversed` | dashboard.py:79 | a start after the end keeps no row |
| `Monthly.DateFilterKeepsOrder` | dashboard.py:79 | the date filter commutes with concatenation, so it keeps the input order |
| `Monthly.AddRowSpec` | dashboard.py:82-86 | adding a row keeps the months ascending, changes only its month's group, and adds its counts to each column total |
| `Monthly.AddRow` | dashboard.py:82-86 | one step of the monthly group-sum; its contract is carried by `AddRowSpec` and `AddRowConsistent` |
| `Monthly.AscendingSize` | dashboard.py:82-86 | groups with strictly ascending months have one entry per distinct month |
| `Monthly.MonthlyTotalsKeys` | dashboard.py:82-86 | the months of the groups are exactly the months present in the rows |
| `Monthly.MonthlyTotalsShape` | dashboard.py:82-86 | one output row per distinct month present, months strictly ascending |
| `Monthly.MonthlyTotalsLookup` | dashboard.py:82-86 | a month has a group exactly when some row is in it, and the group holds those rows' `casual`, `registered` and `cnt`, each summed directly |
| `Monthly.MonthlyTotalsConserve` | dashboard.py:82-86 | summed over all months, each column equals the same column summed over the rows |
| `Monthly.MonthlyTotalsConsistent` | dashboard.py:82-86 | if every row has `cnt == casual + registered`, so does every month group |
| `Monthly.MonthlyTotals` | dashboard.py:82-86 | the monthly group-sum; its contract is carried by `MonthlyTotalsShape`, `MonthlyTotalsLookup`, `MonthlyTotalsConserve` and `MonthlyTotalsConsistent` |
| `Monthly.MonthlyUsageEmptyWhenReversed` | dashboard.py:79-86 | a start after the end gives no month at all |
| `Monthly.MonthlyUsageConserves` | dashboard.py:79-86 | the monthly totals of each column add up to that column over the days in range |
| `Monthly.MonthlyUsage` | dashboard.py:79-86 | date filter then monthly group-sum; its contract is carried by `MonthlyUsageEmptyWhenReversed` and `MonthlyUsageConserves` |
| `Export.FromDaily` | dashboard.py:105 | each daily row appears once, in order, with `hr` missing |
| `Export.FromHourly` | dashboard.py:105 | each hourly row appears once, in order, with its hour |
| `Export.Concat` | dashboard.py:105 | `pd.concat([day_df, hour_df], ignore_index=True)`; its contract is carried by `ConcatShape`, `ExportRoundTrip` and `UnconcatRoundTrip` |
| `Export.ConcatShape` | dashboard.py:105 | the export has `len(day) + len(hour)` rows: the daily rows in order, then the hourly rows in order |
| `Export.ExportRoundTrip` | dashboard.py:105 | splitting the export recovers both tables exactly, so nothing is dropped, merged or re-sorted |
| `Export.UnconcatRoundTrip` | dashboard.py:105 | every table the split accepts is the export of what the split returns |
| `Overview.RentersBySeason` | dashboard.py:37 | when all codes are known, the season view over `'All'` accounts for every renter in the overview total |
| `Overview.RentersByMonth` | dashboard.py:37 | a date range covering every day makes the monthly `cnt` totals equal the overview total |
| `Overview.OverviewMetrics` | dashboard.py:35-37 | the three overview figures; its contract is carried by `OverviewFigures`, `RentersBySeason` and `RentersByMonth` |
| `Overview.OverviewFigures` | dashboard.py:35-37 | the export row count is the sum of the two overview row counts; when every day has `cnt == casual + registered`, the total renters are casual plus registered |
| `Example.SpringTotal` | dashboard.py:50-58 | two spring days with 250 and 130 renters give the single group ("Spring", 380) |
| `Example.JanuaryTotals` | dashboard.py:79-86 | January alone gives the single month group (1, 50, 200, 250) |

## Left out

- The Streamlit layer has no logic to state: page config, sidebar, radio menu, selectbox, date inputs, button, metrics and success message (lines 7, 25-29, 34-36 display, 47, 75-76, 104, 107, 109).
- The date widgets clamp their bounds to the data's min and max date (75-76). Those bounds are library UI behaviour; the model takes any start and end.
- Matplotlib and seaborn charts (61-68, 89-99) only render.
- CSV reading and writing (12-13, 106) are file I/O. The `pd.to_datetime` parsing (16-17) is a foreign library call. The model takes dates as already parsed.
- `st.cache` (10) is a caching decorator whose behaviour lives in the library. The model does not say whether a relabelled cached table is handed to a later run. `Season.RelabelTwiceErases` states what would happen to the season column if it were.
- `describe()` (40) computes floating-point statistics.
- Only the columns the views read are modelled. Of the hourly-only columns, only `hr` is modelled, as an optional field. Pandas' null filling of the other columns on concat is not modelled.
- Counts are unbounded integers. pandas' 64-bit integer overflow in the sums is not modelled.
- Season.SeasonCounts: a cell that still holds a numeric code is treated as having no group key. pandas would group it, or fail to sort a mix of numbers and strings. Such a cell cannot reach line 58, because `Season.MapCell` never leaves a code in the column.
