# Finger-crack counter: verified model of its logic

The application records a timestamped event each time a button is pressed for the tracked
person (the "employee"; the default is 馬). It lists, searches and charts those events. This project
models the parts of the repository that do real computation, as sequential logic over plain records:

- **The record table** (`components/RecordsTable.tsx`). Records are filtered by a case-insensitive
  name search and sorted by timestamp or name, in either direction, in place. The sorted list is cut
  into pages of twenty. The page buttons appear only when there is more than one page. They show every
  page when there are at most five; otherwise page
  1, a window of up to five pages around the current one, the last page, and `...` wherever pages are
  skipped. The view state (search term, sort key, direction, current page) is a class whose sort and search
  handlers reset the page to 1.
- **The counter screen** (`components/Counter.tsx`). A class holds the local record list, the total
  count, today's count and the dialog flag. Its handlers apply the server's already-known answer to
  a save or a delete. It includes the same-calendar-day test and the five most recent records.
- **The chart summary** (`components/StatsChart.tsx`). It shows the total and the maximum of the
  `(date, count)` series and the covered date range. An empty series shows the no-data message.
- **The chart route** (`app/api/chart/route.ts`). Defaults are applied to `period` and `employee`.
  `daily`, `monthly` and `yearly` map to a DATE_TRUNC unit and a TO_CHAR key format; any other value
  is answered with 400 before a query is issued. The rows are mapped one to one into chart points.
- **The search route** (`app/api/search/route.ts`). It turns optional start and end bounds (both
  inclusive; an empty string counts as absent) plus the employee into a match condition.

Timestamps are integers (milliseconds since the epoch). Calendar dates are `(year, month, day)`
triples. The local calendar (`getDate`, `getMonth`, `getFullYear`) depends on the host's time zone,
so it is a function parameter `localDate`. "Today" is also a parameter. The database is a parameter
too: the chart route's query is a function `runQuery`. Its grouping contract (only the employee's
records, one row per period key, groups ascending, COUNT per group) is the predicate
`ChartRoute.GroupedCounts`. Under it, the chart total equals the number of the employee's records.

The code has no gap-filling step: the rows of the SQL query are returned as they come and plotted
directly, so a series may skip periods that have no records.

Files: `types.dfy` (shared records), `text.dfy` (lower-casing, substring, string order),
`record_filter.dfy`, `record_sort.dfy`, `pagination.dfy`, `page_numbers.dfy`, `records_table.dfy`,
`counter.dfy`, `stats_chart.dfy`, `chart_route.dfy`, `search_route.dfy`.

## Model

| member | source | states |
|---|---|---|
| Types.ParamOr | app/api/chart/route.ts:7-8 | the `or` default of a query parameter: a missing or empty parameter gives the fallback, any other value is kept |
| Text.ContainsIff | components/RecordsTable.tsx:24 | the recursive substring test is true iff some window of s equals t |
| Text.ContainsEmpty | components/RecordsTable.tsx:23-25 | every string contains the empty search term |
| Text.Lower | components/RecordsTable.tsx:24 | lower-casing keeps the length and maps every character through the letter mapping |
| Text.StrLtIrreflexive | components/RecordsTable.tsx:38-39 | string `<` is irreflexive |
| Text.StrLtTransitive | components/RecordsTable.tsx:38-39 | string `<` is transitive |
| Text.StrLtTrichotomy | components/RecordsTable.tsx:38-39 | any two strings are equal or one is `<` the other |
| Text.StrLtAsymmetric | components/RecordsTable.tsx:38-39 | `a < b` excludes `b < a` |
| RecordFilter.Filter | components/RecordsTable.tsx:23-25 | every kept record matches the lower-cased search term; no record is added |
| RecordFilter.FilterCount | components/RecordsTable.tsx:23-25 | each record occurs in the result as often as in the input if it matches, else never |
| RecordFilter.FilterMembership | components/RecordsTable.tsx:23-25 | a record is kept iff it is in the input and matches |
| RecordFilter.FilterAppend | components/RecordsTable.tsx:23-25 | filtering a concatenation filters each part, so kept records keep their relative order |
| RecordFilter.FilterEmptyTerm | components/RecordsTable.tsx:16-25 | the empty search term (the initial one) keeps every record, in order |
| RecordSort.InOrderMeaning | components/RecordsTable.tsx:27-41 | with `asc` a record may precede another iff its key is not greater; with `desc` iff not smaller |
| RecordSort.InOrderTotal | components/RecordsTable.tsx:38-40 | the comparator orders every pair one way round |
| RecordSort.InOrderTransitive | components/RecordsTable.tsx:27-41 | "may precede" is transitive for both keys and both directions |
| RecordSort.KeyLtAsymmetric | components/RecordsTable.tsx:30-36 | the key comparison never says both a<b and b<a |
| RecordSort.KeyNotLtTransitive | components/RecordsTable.tsx:30-36 | "not greater" on keys is transitive |
| RecordSort.SortInPlace | components/RecordsTable.tsx:27-41 | the array afterwards is sorted for the key and direction, and is a permutation of the array before |
| RecordSort.InsertLast | components/RecordsTable.tsx:27-41 | one insertion step extends the sorted prefix by one element, permutes the array and leaves every cell after position i as it was |
| RecordSort.SwapAdjacent | components/RecordsTable.tsx:27 | exchanging neighbours changes only those two cells and keeps the multiset |
| RecordsTable.FilterAndSort | components/RecordsTable.tsx:22-44 | the result is sorted and has exactly the multiset of the filtered records |
| RecordsTable.SortedListContents | components/RecordsTable.tsx:22-44 | the sorted list has the filtered list's length, and each record occurs in it as often as in the input if it matches, else never |
| RecordsTable.SortedSlice | components/RecordsTable.tsx:46-49 | a page of a sorted list is sorted and is a sub-multiset of the list |
| Pagination.TotalPages | components/RecordsTable.tsx:46 | `ceil(n/20)`: the least page count with pages*20 >= n; zero exactly when n is zero |
| Pagination.PageRecords | components/RecordsTable.tsx:47-49 | a page holds at most 20 records; page p >= 1 holds exactly the records at positions (p-1)*20 up to min((p-1)*20+20, n) |
| Pagination.PagesUpToPrefix | components/RecordsTable.tsx:46-49 | pages 1..k laid end to end are the first min(20k, n) records |
| Pagination.PagesCoverList | components/RecordsTable.tsx:46-49 | pages 1..totalPages laid end to end are exactly the whole list |
| Pagination.PageEmptiness | components/RecordsTable.tsx:46-49 | for p >= 1, page p is non-empty iff p <= totalPages |
| PageNumbers.Range | components/RecordsTable.tsx:74-77 | the list Page(1), ..., Page(k) |
| PageNumbers.NavWellFormed | components/RecordsTable.tsx:78-95 | the button list for more than five pages starts at 1, ends at totalPages, ascends, marks gaps, bounds the window and shows the current page and its neighbours |
| PageNumbers.NavAscending | components/RecordsTable.tsx:78-95 | the numbered entries strictly increase |
| PageNumbers.NavGaps | components/RecordsTable.tsx:82-94 | neighbouring numbers are consecutive; `...` stands only between numbers at least two apart |
| PageNumbers.NavWindow | components/RecordsTable.tsx:79-94 | the first entry is 1, the last is totalPages, and the numbers other than these span at most five |
| PageNumbers.GeneratePageNumbers | components/RecordsTable.tsx:70-98 | up to five pages: exactly 1..totalPages (empty for none); more, with 1 <= currentPage <= totalPages: exactly the list `Nav`: page 1 and a `...` before the window from WindowStart to WindowEnd when it starts later (the `...` only past page 2), the window, then a `...` and the last page when it ends earlier (the `...` only before the next-to-last page); that list is well formed |
| RecordsTable.TableView.constructor | components/RecordsTable.tsx:16-19 | initial state: empty term, timestamp, descending, page 1 |
| RecordsTable.TableView.HandleSort | components/RecordsTable.tsx:51-59 | the same key flips the direction; another key is set with `desc`; the page returns to 1 |
| RecordsTable.TableView.HandlePageChange | components/RecordsTable.tsx:61-63 | only the current page changes |
| RecordsTable.TableView.HandleSearchInput | components/RecordsTable.tsx:110-113 | a new search term resets the page to 1 and keeps the sort |
| RecordsTable.TableView.Render | components/RecordsTable.tsx:22-215 | sorted list = permutation of the filtered records, sorted; page count is ceil(n/20); the shown page is the slice for the current page and is non-empty for a page in range; no button bar for at most one page; the buttons are 1..totalPages for two to five pages, and otherwise, for a page in range, exactly the list `Nav`, which is well formed |
| Counter.SameDayIsEquality | components/Counter.tsx:103-108 | the `isToday` test holds iff year, month and day are all equal |
| Counter.RemoveById | components/Counter.tsx:97 | the result holds exactly the records whose id differs, and no record with the id |
| Counter.RemoveByIdAppend | components/Counter.tsx:97 | removal works part by part, so the other records keep their order |
| Counter.RemoveAbsentId | components/Counter.tsx:97 | a list without the id is left unchanged |
| Counter.FindById | components/Counter.tsx:101 | None iff no record has the id; otherwise the first record with the id |
| Counter.Recent | components/Counter.tsx:188 | the first min(5, n) records, in order |
| Counter.CounterState.constructor | components/Counter.tsx:10-13 | empty list, counts 0, dialog closed |
| Counter.CounterState.HandleCountClick | components/Counter.tsx:24-26 | opens the dialog, nothing else changes |
| Counter.CounterState.HandleCancel | components/Counter.tsx:81-83 | closes the dialog, nothing else changes |
| Counter.CounterState.HandleConfirm | components/Counter.tsx:28-79 | success: saved record in front of the unchanged list, total +1, today +1 iff the posted instant is today, dialog closed; failure: no change |
| Counter.CounterState.HandleDeleteRecord | components/Counter.tsx:85-119 | declined or failed: no change; success: every record with the id removed in order, total -1 always, today -1 iff the old list had the id and its first such record is from today |
| Counter.SaveThenDelete | components/Counter.tsx:28-119 | saving a record with a fresh id and then deleting it restores the list and both counts |
| StatsChart.TotalAppend | components/StatsChart.tsx:128 | the total of two consecutive parts is the sum of their totals |
| StatsChart.TotalFromFront | components/StatsChart.tsx:128 | the left fold equals the first count plus the total of the rest |
| StatsChart.TotalNonNegative | components/StatsChart.tsx:128 | non-negative counts give a non-negative total |
| StatsChart.MaxCount | components/StatsChart.tsx:143 | the maximum is at least every count and equals some entry's count |
| StatsChart.CountAtMostTotal | components/StatsChart.tsx:128 | with non-negative counts no entry exceeds the total |
| StatsChart.Summarize | components/StatsChart.tsx:118-185 | no figures iff the series is empty; otherwise the total, the maximum, and the range from the first to the last date with the number of entries |
| StatsChart.SummaryMaxAtMostTotal | components/StatsChart.tsx:128-143 | with non-negative counts the maximum shown never exceeds the total shown |
| ChartRoute.SelectPeriod | app/api/chart/route.ts:13-31 | accepted iff the value names a period type; daily/monthly/yearly give day/month/year truncation with YYYY-MM-DD / YYYY-MM / YYYY; otherwise status 400 |
| ChartRoute.PlanQuery | app/api/chart/route.ts:7-31 | a missing period means daily; a missing employee means 馬; the grouping is the one the period switch selects for the requested period; a bad period is a 400 |
| ChartRoute.MapRows | app/api/chart/route.ts:43-46 | same length and order as the rows; each date copied and each count converted |
| ChartRoute.ChartGet | app/api/chart/route.ts:4-56 | 400 for a bad period; 500 when the query throws; otherwise the mapped rows |
| ChartRoute.RejectionIssuesNoQuery | app/api/chart/route.ts:26-31 | for a refused period the answer does not depend on the database |
| ChartRoute.CountInUnion | app/api/chart/route.ts:36-39 | counting over two disjoint key sets adds up |
| ChartRoute.CountInNone | app/api/chart/route.ts:36-39 | no records have a key in the empty set |
| ChartRoute.CountInCovering | app/api/chart/route.ts:38 | when every key of the employee's records is in the set, the count is the employee's record count |
| ChartRoute.RowsTotal | app/api/chart/route.ts:33-46 | with distinct row keys, the counts add up to the records whose key is among them |
| ChartRoute.ChartTotalIsRecordCount | app/api/chart/route.ts:33-48 | under the query's grouping contract the chart total (and the summary total) is the employee's record count |
| SearchRoute.BuildWhere | app/api/search/route.ts:9-26 | the employee (default 馬) always; a range iff some bound is truthy, with `gte` exactly when start is truthy and `lte` exactly when end is truthy |
| SearchRoute.SearchMatch | app/api/search/route.ts:11-26 | a record matches iff it is the employee's and start <= timestamp <= end for each truthy bound |
| SearchRoute.NoBoundsNoTimeConstraint | app/api/search/route.ts:11-26 | without truthy bounds only the employee matters |
| SearchRoute.InvertedRangeMatchesNothing | app/api/search/route.ts:13-17 | start after end matches no record |

## Left out

- Network and database calls (`fetch`, Prisma `findMany`/`create`/`delete`/`count`/`$queryRaw`,
  `NextResponse`). Server answers are parameters (`SaveReply`, `DeleteReply`, `runQuery`).
  `app/api/records/route.ts`, `app/api/stats/route.ts` and `lib/database.ts` are not part of this model.
- `loadData` in components/Counter.tsx:121-157: it only copies two fetched answers into the state, with
  `Promise.all` between them. That is I/O and concurrency.
- Execution of the SQL grouping (app/api/chart/route.ts:33-41). `ChartRoute.GroupedCounts` is an assumed
  contract, and the key function `key` stands for TO_CHAR of DATE_TRUNC in the database's time zone. Its
  ascending order is stated on the formatted keys. That matches the order of the truncated dates for
  zero-padded four-digit years.
- ChartRoute.GroupedCounts describes the grouping query as intended. The route splices the truncation unit
  and the key format into the query template (app/api/chart/route.ts:35, 39-40); if the database layer binds
  them as string parameters rather than SQL text, every accepted period fails in the database and is
  answered with 500. That case is covered by `ChartGet`'s 500 branch; which of the two happens is not
  decided by this model.
- ChartRoute.MapRows: `Number(bigint)` loses precision above 2^53; the model copies counts exactly.
- Parsing of `startDate`/`endDate` with `new Date(...)`. A search parameter carries its text and the
  instant it parses to. An unparsable date, which makes the database call fail with 500, is not modelled.
  The search result mapping (app/api/search/route.ts:33-37) only reformats timestamps with `toISOString`
  and is left out with the query.
- Host clock and time zone (`new Date()`, local `getDate`/`getMonth`/`getFullYear`). "Today" and the local
  date of an instant are parameters.
- Text.Lower: maps only the ASCII letters A-Z. `toLowerCase` applies the full Unicode case mapping, so
  non-ASCII case-insensitive matches are not modelled.
- Text.StrLt compares Unicode scalar values; JavaScript compares UTF-16 code units. They differ only
  between characters outside the Basic Multilingual Plane and characters from U+E000 to U+FFFF.
- RecordSort.SortInPlace: stability is not stated. The model swaps only when the comparator answers 1.
  Equal keys therefore keep their order, like the engine's stable sort, but no contract says so.
- The average in components/StatsChart.tsx:134-137: it uses floating-point division and `Math.round`.
- `getSortIcon`, JSX rendering, recharts, loading and error screens, `alert`/`confirm` dialogs (the user's
  answer to `confirm` is the `confirmed` parameter), `console` logging, `RecordDialog.tsx`,
  `SearchFilter.tsx` (form state and a week-start date computation on the host clock), `app/layout.tsx`
  and `app/page.tsx`.
- React state updates are applied as one sequential transition per handler. Interleavings of
  asynchronous handlers are concurrency and are not modelled.
- PageNumbers.GeneratePageNumbers: for more than five pages, its contract covers only 1 <= currentPage <=
  totalPages. The code also runs for a current page beyond the last one (after the list shrinks), and the
  model computes that case as the code does without stating properties of it.
