# Case dashboard: filter, query, views and counts

A Dafny model of the data pipeline of a read-only case-tracking dashboard (`app.py`). A run
of the page takes the sidebar's values: two dates and three selectbox choices (login, manager
login, site). It turns them into a filter dictionary, then into a document-store query with
a fixed ten-field projection. It fetches the matching cases and turns a failed fetch into an
empty list. Then it splits the cases into a full frame, where `_id` becomes text, and a
display frame with eight renamed columns. Last, it computes the headline metrics and the
per-group counts and mean durations behind the charts. The selectboxes are filled with the
sorted distinct values of each field.

Modules, one per component:

- `Optional` (`optional.dfy`): the `Option` datatype.
- `Collation` (`collation.dfy`): string order as the store and Python compare strings (code point
  by code point), its order laws, de-duplication and sorting.
- `Dates` (`dates.dfy`): calendar dates, `strftime('%Y-%m-%d')`, and the proof that text order of
  formatted dates is calendar order.
- `Cases` (`cases.dfy`): the case record, field lookup by name, the projection, and the
  conversion of `_id` to text (ObjectId to hexadecimal).
- `Query` (`query.dfy`): the filter dictionary, `query_data`'s query construction (a method
  with the source's loop), the store's matching semantics, the fetch and its error collapse.
- `Views` (`views.dfy`): `transform_data`.
- `Aggregates` (`aggregates.dfy`): group-by counts, sums and means, `get_unique_values`, and
  the metric cards.
- `Dashboard` (`dashboard.dfy`): one run of `main` and `create_dashboard`, returning what
  the page would show.

The store is a value: a sequence of cases in natural order, plus the error that `find` or
`distinct` raises, if any. Its `find` returns the matching cases in that order.

Some behaviour of the code worth knowing:

- A selector adds a constraint when its value is truthy (app.py:65). The `'All'` choice is
  one falsy case (app.py:230-232), and an empty string is another.
- The charts are the seven of `create_dashboard` (app.py:112-178); there is no
  date-by-site heatmap.
- `main` returns with a warning before `transform_data` when nothing came back
  (app.py:235-238). The empty branch of `transform_data` is modelled, but a run never
  reaches it.
- A failing `distinct` (app.py:209-221) is not swallowed like a failing `find`. It reaches
  the page's outer handler (app.py:280-282), and the model returns `Error` for it.
- `transform_data` is cached with its only parameter left out of the cache key
  (app.py:88-89); see "Findings". `RunDashboard` uses a cache keyed by the documents.

## Model

| member | source | states |
|---|---|---|
| `Collation.LexLeTotal` | app.py:60-62 | the string order used by `$gte`/`$lte` and `sorted` is total |
| `Collation.LexLeTransitive` | app.py:60-62 | that order is transitive |
| `Collation.LexLeAntisymmetric` | app.py:60-62 | that order is antisymmetric, so strings that sort both ways are equal |
| `Collation.LexLeAppend` | app.py:60-62 | strings whose first parts have equal length compare by the first parts, then by the rest |
| `Collation.Dedupe` | app.py:51 | `distinct` gives each value of the field once, and no other values |
| `Collation.SortDistinct` | app.py:51 | `sorted` of a duplicate-free list is strictly increasing and a permutation of it |
| `Collation.Insert` | app.py:51 | inserting a new value into a strictly increasing list keeps it strictly increasing and adds exactly that value |
| `Collation.StrictlySortedUnique` | app.py:51 | two strictly increasing lists with the same values are equal, so the sorted choice list does not depend on the order `distinct` returns |
| `Dates.Digits` | app.py:61-62 | a date field is written with a fixed number of decimal digits |
| `Dates.DigitsOrder` | app.py:61-62 | fixed-width decimal strings compare as the numbers they spell, and are equal exactly when the numbers are |
| `Dates.Format` | app.py:61-62 | `strftime('%Y-%m-%d')` gives ten characters, with dashes at positions 4 and 7 |
| `Dates.FormatOrder` | app.py:59-63 | formatted dates compare as text exactly as the dates compare on the calendar |
| `Dates.FormatInjective` | app.py:61-62 | different dates give different texts |
| `Cases.ProjectionIsRecord` | app.py:69-78 | the projection names ten distinct fields, exactly the fields a fetched case can be read by |
| `Cases.Hex` | app.py:96 | `str(ObjectId)` has two hexadecimal characters per byte |
| `Cases.ParseHexRoundTrip` | app.py:96 | reading the hexadecimal text back gives the identifier's bytes |
| `Cases.HexInjective` | app.py:96 | different identifiers give different 24-character texts |
| `Cases.Stringify` | app.py:95-96 | `astype(str)` always yields text, leaves text unchanged, and turns an ObjectId into 24 characters that read back to it |
| `Query.SidebarFilters` | app.py:227-233 | a selector's entry is `None` exactly when its choice is `'All'`; otherwise the entry is the choice; the dates pass through |
| `Query.BuildQuery` | app.py:57-66 | the query has a `finishDate` range exactly when both dates are given, bounded by their formatted texts; it has an exact match for each selector exactly when the value is truthy; it has no other key |
| `Query.DescribesUnique` | app.py:57-66 | the query is determined by the filters |
| `Query.QueryMeaning` | app.py:57-66 | the query matches a case exactly when the case meets every given filter: date text in the inclusive range, and equal to each truthy selector value |
| `Query.DateRangeIsInclusive` | app.py:59-63 | a case finished on day `d` passes the date range exactly when start <= d <= end on the calendar |
| `Query.EndDayIncluded` | app.py:59-63 | the end date is inclusive: with only the two dates set and start not after end, a case finished on the end date matches |
| `Query.AfterEndExcluded` | app.py:59-63 | a case finished after the end date never matches, whatever the selectors |
| `Query.PartialRangeIgnored` | app.py:59-63 | with only one date given, `finishDate` has no effect on matching |
| `Query.SidebarChoices` | app.py:227-233 | `'All'` or an empty choice puts no key for that field in the query; any other choice puts an exact match on it |
| `Query.MoreConstraintsMatchLess` | app.py:57-66 | matching is conjunctive: adding entries never admits more cases, and the empty query matches every case |
| `Query.Filter` | app.py:80-81 | `find` returns only cases of the collection that match, and every matching case, at most as many as the collection holds |
| `Query.FilterIsSelect` | app.py:57-81 | running the built query returns exactly the cases the filters admit, in collection order |
| `Query.FilterEmptyQuery` | app.py:80-81 | the empty query returns the whole collection, unchanged and in order |
| `Query.FilterNarrows` | app.py:64-66 | a query with more entries returns a sub-multiset of what the smaller query returns |
| `Query.QueryData` | app.py:53-86 | a failed fetch gives the empty list; otherwise the result is the admitted cases, unchanged and in store order |
| `Views.DisplayRow` | app.py:98-107 | a display row has eight values, the j-th read from the j-th source field of the rename map |
| `Views.TransformData` | app.py:89-110 | the full frame keeps every case in order, with `_id` as text and every other field untouched; the display frame has the eight labels in map order and one row per case, each value read from its source field; no cases give two empty frames |
| `Views.RenameRoundTrip` | app.py:98-105 | the rename is one-to-one: eight distinct source fields, all projected, and eight distinct labels, each mapped back to its own source |
| `Views.TransformIdempotent` | app.py:94-96 | transforming the full frame again changes neither frame |
| `Aggregates.Keys` | app.py:117 | the key column has one key per row, the key of that row |
| `Aggregates.CountBy` | app.py:117 | a group-by count has a group exactly for each key that occurs, each with a count of at least one |
| `Aggregates.Count` | app.py:123 | `value_counts` has an entry exactly for each key in the column, each at least one |
| `Aggregates.CountMultiplicity` | app.py:117-123 | each key's count is the number of times the key occurs in the column |
| `Aggregates.CountTotal` | app.py:117-123 | the counts add up to the length of the column |
| `Aggregates.CountByFacts` | app.py:117 | every emitted key was seen, every seen key is emitted, each count is at least one, and the counts add up to the rows |
| `Aggregates.KeysSeen` | app.py:117 | a key is in the key column exactly when some row carries it |
| `Aggregates.DailyCounts` | app.py:117 | cases per `finishDate`: only dates that occur, each at least once, adding up to the number of cases |
| `Aggregates.SiteCounts` | app.py:123 | cases per site: only sites that occur, each at least once, adding up to the number of cases |
| `Aggregates.CategoryCounts` | app.py:129 | cases per category: only categories that occur, each at least once, adding up to the number of cases |
| `Aggregates.CategoryBySiteCounts` | app.py:147 | cases per (site, category) pair: only pairs that occur, each at least once, adding up to the number of cases |
| `Aggregates.QueueCounts` | app.py:172 | cases per queue: only queues that occur, each at least once, adding up to the number of cases |
| `Aggregates.CrossTabRefinesCategory` | app.py:147 | a category has a bar exactly when some (site, category) pair with it does, and both charts count the same cases |
| `Aggregates.SumsValue` | app.py:135 | a group-by sum over a key column and a value column holds, for each key, the sum of the values standing beside that key |
| `Aggregates.SumsTotal` | app.py:135 | the group sums add up to the sum of the whole value column |
| `Aggregates.ColumnsOfRows` | app.py:135 | reading the key and `totalTime` columns off the rows keeps each group's duration and the overall duration |
| `Aggregates.SumBy` | app.py:135 | per-group duration sums have a group exactly for each key that occurs, holding the total duration of exactly the rows with that key |
| `Aggregates.SumByTotal` | app.py:135 | the per-group sums add up to the total duration of all cases |
| `Aggregates.MeanOf` | app.py:135 | each group's mean times the group's count is the group's sum |
| `Aggregates.MeanBy` | app.py:135 | one mean per observed key, which times the number of rows with that key gives the total duration of those rows |
| `Aggregates.MeanTimeByCategory` | app.py:135 | one mean per category that occurs; times the category's case count it gives the total duration of the cases in that category |
| `Aggregates.MeanTimeByDay` | app.py:160 | one mean per day that occurs; times the day's case count it gives the total duration of the cases finished that day |
| `Aggregates.MeanTimeExample` | app.py:135 | categories A, A, B with times 10, 20 and 5 have means 15 and 5 |
| `Aggregates.UniqueValues` | app.py:47-51 | the choice values are strictly increasing and are exactly the values the field takes in the collection |
| `Aggregates.SelectorOptions` | app.py:209-221 | a selectbox lists `'All'` first, then the strictly increasing distinct values and nothing else |
| `Aggregates.KeySetBound` | app.py:256 | grouping by a key gives one group per distinct key; there are at most as many as rows, and at least one when there are rows |
| `Aggregates.UniqueAgents` | app.py:256 | the unique-agent count is the number of login groups; it is at most the case count and zero exactly when there are no cases |
| `Aggregates.AverageTime` | app.py:255 | the average time is 0 for no cases, and otherwise times the case count gives the total duration |
| `Aggregates.ComputeMetrics` | app.py:254-256 | the total-case card shows the case count; the average is 0 for no cases and otherwise times the count gives the total duration; the unique-agent count is the number of login groups, at most the case count and zero exactly when there are no cases |
| `Dashboard.BuildCharts` | app.py:112-178 | every count chart accounts for each case once; the mean charts have one entry per category and per day |
| `Dashboard.EmptyInputEmptyCharts` | app.py:94-110 | no cases give empty frames and empty derived tables, never a failure |
| `Dashboard.UnkeyedTransform` | app.py:88-89 | `@st.cache_data` with the documents left out of the key: the first call transforms its documents and fills the one slot; a later call returns the slot's frames |
| `Dashboard.UnkeyedShowsFirstRun` | app.py:88-89 | a second run is shown the first run's frames, whatever its own documents |
| `Dashboard.StaleFramesExample` | app.py:88-89 | for two one-case selections the second run shows case 1 and not its own case |
| `Dashboard.KeyedTransform` | app.py:88-89 | a cache keyed by the documents returns exactly the transform of the documents asked for, and every entry it holds stays the transform of its key |
| `Dashboard.RunDashboard` | app.py:180-279 | no client: nothing shown. A failing `distinct`: an error. Otherwise the choice lists are shown, and "no data" is shown exactly when the fetch failed or matched nothing. A shown page holds the transformed admitted cases (the cache stays sound), a positive case count equal to the display rows, 1 to that many unique agents, and a daily chart adding up to the count |

## Left out

- Streamlit page setup, widgets, spinner, rerun button, HTML metric cards and the
  `st.cache_resource` decorator on the client (app.py:23-28, 31, 180-284): user interface and
  framework caching. The widgets' values are the inputs of `RunDashboard`.
- `RunDashboard`: the page shows `TransformData` of the current documents through
  `KeyedTransform`, the cache as evidently intended. With `@st.cache_data` as written
  (app.py:88-89) the frames go stale after the first run; `UnkeyedTransform` models that.
  Streamlit's cache lifetime, its copying of returned frames and its per-session scope are not
  modelled.
- `MongoClient` construction and the `.env` lookup (app.py:32-45): network and configuration
  I/O. A client that could not be made is the `None` connection.
- The batch size of 500 (app.py:80): batching is invisible in the returned list.
- Logging calls throughout.
- Plotly chart calls (app.py:118-178): only the data handed to each chart is modelled.
- The Excel export through `pd.ExcelWriter`/BytesIO and its timestamped file name
  (app.py:241-253): serialisation library and wall-clock time.
- The "Select Columns to Display" multiselect (app.py:276-278): a widget choosing a subset of
  the display columns.
- Default date range from `datetime.now()` (app.py:195-208): wall-clock time. Dates are inputs.
- export.py is not part of this model: it fetches everything, drops `_id` and writes a file.
- `MeanBy`: means are exact rationals (`real`), not IEEE floats, so rounding of
  `mean()` is not modelled.
- `Dates.Format`: years are padded to four digits. The C library prints years below 1000
  unpadded, but the date pickers never offer such years.
- `Cases.Stringify`: `_id` values other than text, integers and ObjectIds are not modelled.
- Case records always carry all ten fields, with `totalTime` as an integer number of
  seconds. Documents missing a field, pandas `NaN` and the `KeyError` a missing display
  column would raise are not modelled.
- `Query.Holds`: matching compares only the scalar fields a case record has. MongoDB's
  matching of array fields and its comparisons across BSON types are not modelled.
- `Aggregates.CountBy`: groups are a map, so the order of pandas' result is not
  modelled (groupby sorts by key, `value_counts` by count).
- `Collation.Dedupe`: the order in which the store's `distinct` returns values is unspecified.
  The model keeps last occurrences. `StrictlySortedUnique` shows the sorted choice list does not
  depend on this.

## Findings

| source | as written | input that shows it | evidently intended | confidence | as-written member | corrected member |
|---|---|---|---|---|---|---|
| app.py:88-89 | `@st.cache_data` on `transform_data(_documents)`: the leading underscore tells Streamlit not to hash the parameter, so the cache key ignores the documents and every call after the first returns the first result | a run whose filters select case 1, then a run whose filters select case 3: the second page shows case 1's frames, metrics and charts | cache the frames per document list, so each run shows the cases it fetched | not executed | `Dashboard.UnkeyedTransform`, `Dashboard.StaleFramesExample` | `Dashboard.KeyedTransform` |
