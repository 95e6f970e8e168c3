# Diwali sales dashboard — data pipeline model

The dashboard (`Dipawali/Dipawali.py`) loads a table of Diwali sales, lets the
user filter it by Gender, Age Group, Zone and Product_Category, and shows four
KPI cards and six grouped charts computed from the filtered rows. This project
models that data pipeline in Dafny and proves what each step promises:

- **Loading** (`Loader`): the CSV read outcome is a parameter; a read error
  stops the dashboard and a missing file falls back to the three-row sample.
  `Status` and `unnamed1` are dropped when present. The required columns are
  checked, and the absent ones are reported in `required_cols` order. A
  missing Amount is filled with the median of the present ones. `LoadData` and
  `CleanTable` are methods that rebind the table step by step. The Amount
  column is written back in place through an array by `FillNa`.
- **Filtering** (`FilterEngine`): the view is computed the way pandas computes
  it. Each of the four columns gets an `isin` mask, the masks are combined with
  `&`, and the table is boolean-indexed. The view is proved to keep exactly the
  matching rows, in table order. The download button evaluates the same
  expression, so it exports exactly the view.
- **KPIs** (`Kpis`): total Amount, total Orders, and the average order value,
  which is guarded against zero orders. The number of distinct User_IDs is
  never larger than the number of rows.
- **Grouping** (`Aggregates`): `groupby(...).sum()` gives one group per
  distinct key, with the keys in ascending order as pandas lists them. Each
  group's total is the sum over its rows. The group totals add up to the
  column total.
- **Top-N** (`Ranking`): `sort_values(ascending=False).head(n)`. It keeps at
  most `n` groups, in descending order, and no group left out is larger than a
  group shown.
- **The page** (`Dashboard`): one recomputation for a filter selection. The
  download equals the view, the cards and charts are those of the view, and
  every chart's total agrees with the KPI cards. The page as the code writes
  it, where the cached chart data never changes after the first rerun, is
  modelled next to it (see "## Findings").

Amount is `Option<real>`. pandas holds a column with missing cells as floats,
and the median of an even number of values can end in .5. A missing Amount
adds 0 to a sum, as pandas' `sum` skips NaN. Orders are integers.

Two behaviours of the code are modelled as written:

- When every Amount is missing, their median is NaN and `fillna` leaves them
  missing. So "no Amount is missing after loading" holds only when at least one
  Amount is present (`Loader.LoadData`, `Loader.NothingObservedIffAllMissing`).
- An empty selection in any one dimension empties the view. The converse does
  not hold: four non-empty selections can still match no row. So only that
  direction is proved (`FilterEngine.EmptySelectionGivesEmptyView`).

## Model

| member | source | states |
|---|---|---|
| `Loader.Without` | Dipawali/Dipawali.py:33-37 | the filter behind both header steps keeps exactly the elements not excluded, in their order |
| `Loader.DropOptionalColumns` | Dipawali/Dipawali.py:33 | a column is kept iff it is in the header and is neither `Status` nor `unnamed1`; a label with no column is no error; the kept columns keep their order |
| `Loader.MissingColumns` | Dipawali/Dipawali.py:36-37 | the list holds exactly the required columns absent from the header, in `required_cols` order |
| `Loader.NothingMissing` | Dipawali/Dipawali.py:36-38 | when every required column is present the missing list is empty, so loading goes on |
| `Loader.AbsentAmountIsReportedFirst` | Dipawali/Dipawali.py:36-40 | a table without Amount is rejected, with Amount first in the missing list |
| `Loader.SampleHasRequiredColumns` | Dipawali/Dipawali.py:18-21 | the built-in sample passes the required-column check |
| `Loader.SortAscending` | Dipawali/Dipawali.py:44 | the sort used by the median is ascending and keeps the length and every value count |
| `Loader.Median` | Dipawali/Dipawali.py:44 | the median is absent (NaN) iff there is no value; otherwise at least half of the values are at most it and at least half are at least it |
| `Loader.MedianOfTwo` | Dipawali/Dipawali.py:43-44 | the median of 15000 and 12000 is 13500, the value a missing Amount between them gets |
| `Loader.NothingObservedIffAllMissing` | Dipawali/Dipawali.py:43-44 | no Amount is available to the median exactly when every Amount is missing |
| `Loader.FillNa` | Dipawali/Dipawali.py:44 | after the fill a present Amount is unchanged and a missing one holds the fill value |
| `Loader.CleanTable` | Dipawali/Dipawali.py:32-46 | on the table read: absent required columns stop loading with exactly that list; otherwise the header is the kept columns, the rows are the same rows, present Amounts are unchanged, missing ones equal the median of the present ones, and none is left missing unless all were |
| `Loader.LoadData` | Dipawali/Dipawali.py:16-46 | a read error stops loading with its message; a missing file loads and cleans the sample and flags it; a read table is cleaned as `Loader.CleanTable` states |
| `FilterEngine.FilterMaskAt` | Dipawali/Dipawali.py:127-131 | each entry of the combined `isin` mask is true iff its row's Gender, Age Group, Zone and Product_Category are all selected |
| `FilterEngine.KeptIndex` | Dipawali/Dipawali.py:127-132 | boolean indexing keeps the positions where the mask is true, each in range, in increasing order, and every such position |
| `FilterEngine.SelectAt` | Dipawali/Dipawali.py:127-132 | `rows[mask]` is, in order, the rows at the kept positions |
| `FilterEngine.FilteredViewKeepsMatchingRowsInOrder` | Dipawali/Dipawali.py:127-132 | the view is the table rows at strictly increasing positions, and a position is kept iff its row matches all four selections |
| `FilterEngine.FilteredViewMembership` | Dipawali/Dipawali.py:127-132 | a record is in the view iff it is in the table and matches all four selections |
| `FilterEngine.EmptySelectionGivesEmptyView` | Dipawali/Dipawali.py:127-132 | an empty selection in any one dimension gives an empty view |
| `FilterEngine.DefaultSelectionKeepsEverything` | Dipawali/Dipawali.py:81-111 | with the multiselect defaults (every observed value) the view is the whole table |
| `SalesData.SumOfOrders` | Dipawali/Dipawali.py:140 | the Orders column summed as a measure equals the integer order total |
| `Kpis.AverageOrderValue` | Dipawali/Dipawali.py:141 | with orders, the average times the order count is the total sales; without orders it is 0 and nothing is divided |
| `Kpis.UniqueCustomersAtMostRows` | Dipawali/Dipawali.py:142 | the distinct customer count never exceeds the number of rows and is 0 iff the view is empty |
| `Kpis.EmptyViewKpis` | Dipawali/Dipawali.py:139-142 | on an empty view total sales, total orders, the average and the customer count are all 0 |
| `Aggregates.AddToKeysAndTotal` | Dipawali/Dipawali.py:231-238 | adding a row's value to its group adds the row's key to the keys and the value to the total |
| `Aggregates.AddToAscending` | Dipawali/Dipawali.py:231-238 | adding a row's value keeps the groups in strictly ascending key order |
| `Aggregates.AddToLookup` | Dipawali/Dipawali.py:231-238 | adding a row's value changes the total of that row's group by the value and no other group |
| `Aggregates.GroupBy` | Dipawali/Dipawali.py:231-238 | the groups are in strictly ascending key order, their keys are exactly the keys in the rows, each group's total is the sum over the rows with its key, and the totals add up to the column sum |
| `Ranking.InsertDescendingPermutes` | Dipawali/Dipawali.py:173 | inserting a group adds exactly that group |
| `Ranking.InsertDescendingSorted` | Dipawali/Dipawali.py:173 | inserting into a descending list keeps it descending |
| `Ranking.SortDescending` | Dipawali/Dipawali.py:173 | the sorted groups are in descending order of total and are a permutation of the input |
| `Ranking.TopNSelectsLargest` | Dipawali/Dipawali.py:171-173 | the top-N has `min(n, groups)` groups for `n >= 0` and all but the last `-n` for `n < 0`, as `head` does, is descending, together with the groups left out is exactly the input, and every selected total is at least every unselected total |
| `Dashboard.ComputeKpis` | Dipawali/Dipawali.py:139-142 | the cards hold the Amount and Orders sums, the guarded average, and the number of distinct User_IDs, which is at most the row count and 0 only for an empty view |
| `Dashboard.PrepareVisualizationData` | Dipawali/Dipawali.py:230-247 | each of the six fields is the group-by of the view on its columns (Amount by Gender, Age Group, Zone, Product_Category and (Age Group, Gender); Orders by Product_Category), so it has one group per key in ascending order with the sum over that key's rows; each grouping adds up to the view's total, and product sales and product orders have the same categories |
| `Dashboard.ComputeDashboard` | Dipawali/Dipawali.py:116-249 | the intended page: the view is the filtered table, the download equals it and holds exactly the matching rows, the cards and the chart data are those of the view, every chart's total agrees with the KPI cards, and the two rankings are the top ten of the product charts, at most 10 groups in descending order |
| `Dashboard.ComputeDashboardAsWritten` | Dipawali/Dipawali.py:229-249 | the page as written: the view, the download and the cards follow the selection, but once the cache holds an entry the chart data and rankings are that entry, and the rerun leaves its chart data in the cache |
| `Dashboard.AsWrittenChartsStayFrozen` | Dipawali/Dipawali.py:229-249 | as written, every rerun of a session shows the chart data of the first selection's view, or of the entry already cached, whatever the later selections are |
| `Dashboard.MaleSampleView` | Dipawali/Dipawali.py:127-132 | on the sample with only "M" selected, the view is the first and third rows, and their Amounts total 27000 |
| `Dashboard.AsWrittenChartsDisagreeWithKpis` | Dipawali/Dipawali.py:229-249 | as written, selecting everything and then deselecting "F" on the sample gives a KPI total of 27000 next to a gender pie adding up to 72000 |
| `Dashboard.EmptySelectionPage` | Dipawali/Dipawali.py:127-142 | with an emptied multiselect the page has no rows, all-zero KPIs and no group in any chart |
| `Dashboard.SampleKpis` | Dipawali/Dipawali.py:139-142 | the three sample rows, fully selected, give total sales 72000, 15 orders, an average of 4800 and 3 customers |

## Findings

| source | as written | input that shows it | evidently intended | confidence | as-written member | corrected member |
|---|---|---|---|---|---|---|
| Dipawali/Dipawali.py:229-249 | `prepare_visualization_data(_filtered_dt)` is under `@st.cache_data`, which leaves parameters whose names start with `_` out of the cache key. The key never changes, so every rerun after the first gets the first chart data and top-ten rankings, while the KPI cards follow the filters | sample loaded, every value selected, then "F" deselected: total sales card 27000, gender pie 45000 + 27000 = 72000 | charts and rankings computed from the current filtered view, agreeing with the KPI cards | high, not executed | `Dashboard.AsWrittenChartsDisagreeWithKpis` | `Dashboard.ComputeDashboard` |

## Left out

- Streamlit presentation is not modelled: page configuration, CSS, the sidebar widgets and their `update_filters` callback, KPI HTML formatting, the raw-data expander and the footer timestamp (Dipawali/Dipawali.py:9-13, 50-124, 144-152, 337-347). Only the widgets' default values are modelled (`FilterEngine.DefaultSelection`).
- `@st.cache_data` on `load_data` is not modelled: that function has no parameters and reads the same file, so its cached result is what a fresh call returns. The cache of `prepare_visualization_data` changes what the page shows and is modelled (`Dashboard.ComputeDashboardAsWritten`, see "## Findings").
- CSV parsing, the ISO-8859-1 encoding and the `StringIO` sample text are library I/O. The read result is the parameter `ReadOutcome`, the sample is the parsed table `SampleTable`, `st.stop()` is a `Failure` result and the `st.warning` is the `usedSample` flag.
- A record carries only the columns the pipeline reads. Age, Marital_Status, State and Occupation pass through unchanged and are only displayed or exported, so they are not in `Record`, and `DropOptionalColumns` acts on the header.
- The download's `to_csv(index=False).encode('utf-8')` is byte encoding and is not modelled; the model stops at the rows exported.
- Chart drawing is matplotlib/seaborn work with float layout parameters: `plot_gender_pie`, the body of `plot_vertical_bar` (including its `pd.Categorical` reordering of age groups, :204-206), the bar labels and the inline `sns.barplot` (Dipawali/Dipawali.py:155-226, 313-332).
- The per-chart `try`/`except` blocks (Dipawali/Dipawali.py:255-334) isolate rendering errors and hold no data logic.
- Floating-point rounding is not modelled: Amount sums and the average are exact `real`s. NaN is modelled only for Amount, as `None`; missing cells in the other columns are not modelled.
- Ranking.SortDescending: keeps groups with equal totals in key order; pandas' default `quicksort` does not promise any order among ties, so the tie order is not part of what is proved, only the descending order, the permutation and the top-N bound.
- Loader.Median: its contract states the defining half-below/half-above property, which for an even count any value between the two middle values meets; the exact midpoint comes from its body and is checked on the worked example (`Loader.MedianOfTwo`).
