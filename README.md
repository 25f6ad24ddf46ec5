# Product-safety dashboard: a Dafny model of its data core

The dashboard loads three JSON datasets of product test results (Trustified,
UnboxHealth and an "Open Data" collection). It normalizes each into one flat
list of product records and joins the three lists. It then counts records per
status and draws a donut chart of those counts. Finally it lets the user filter
the list by status (by clicking a chart slice), by free-text search, or by
clicking a card's category.

This project models that core of `script.js` and proves properties of it:

- `wrappers.dfy`: `Option`, for JSON fields that may be absent.
- `sequences.dfy` (module `Sequences`): order-preserving selection from a sequence.
- `strings.dfy` (module `Strings`): the JavaScript string operations the core
  uses. These are `toLowerCase` (ASCII), `indexOf`/`includes`, `replace` with a
  string pattern (first occurrence only), `replace(/_/g, ' ')` and `trim`
  (ECMAScript whitespace and line terminators).
- `records.dfy` (module `Records`): the raw shape (category to status buckets
  to `{name, link?, source?}` entries), the unified `Record`, the four-valued
  `Status`, and per-status counting.
- `normalize.dfy` (module `Normalize`): the three normalizers. Each is an
  imperative method whose loops push records, proved equal to the
  specification function `Normalized`. Lemmas cover record counts per status,
  per-record guarantees (source labels, link fallback, statuses) and the Unbox
  category cleanup.
- `stats.dfy` (module `Stats`): the counts of `updateStats`.
- `chart.dfy` (module `Chart`): `drawPieChart`'s angle accumulation and
  `createDonutSegment`'s large-arc flag, over exact reals.
- `filter.dfy` (module `Filter`): the predicate of `filterData` and the records
  it shows.
- `dashboard.dfy` (module `Dashboard`): class `DashboardState` holds
  `allProducts`, `activeFilter` and the search text. Its methods are the
  events: loading, slice click, search input, category click and centre click.

Behaviour of `script.js` worth noting:

- Any non-empty query filters, including a one-letter one. Only the search
  highlighting is limited to queries longer than one character.
  `Filter.SingleLetterQueryFilters` exhibits this.
- The Unbox cleanup can leave an empty category. The code does not fall back
  to the original name (`Normalize.CleanCategoryCanBeEmpty`).
- The Unbox cleanup removes the first occurrence of `supplements` wherever it
  is. It is not a suffix strip (`Normalize.CleanCategoryFirstOnly`).
- With no records at all, no percentages are computed and no chart is drawn
  (`Chart.UpdateStats`).

## Model

| member | source | states |
|---|---|---|
| `Normalize.NormalizeTrustified` | script.js:56-101 | the loop's output is `Normalized(Trustified, data)`: per category, in enumeration order, the pass, fail and expired buckets, expired becoming pending |
| `Normalize.NormalizeUnbox` | script.js:104-150 | the loop's output is `Normalized(Unbox, data)`: per category the cleaned category, then the pass, not_healthy and fail buckets |
| `Normalize.NormalizeOpenData` | script.js:153-194 | the loop's output is `Normalized(OpenData, data)`: per category the pass, fail and expired buckets, expired becoming pending |
| `Normalize.PushBucket` | script.js:62-71 | a present bucket appends one record per entry, in entry order; an absent bucket appends nothing |
| `Normalize.MakeRecord` | script.js:64-70 | name, category and status come from the entry and bucket; a truthy entry link is kept; a Trustified pass/pending record without a truthy link gets `https://www.trustified.in/passandfail`, every other record keeps the entry's link; sources are "Trustified", "UnboxHealth", or the entry's truthy source, else exactly "Open Data" |
| `Normalize.MapEntries` | script.js:63-71 | exactly one record per entry, record k built from entry k |
| `Normalize.CleanCategory` | script.js:108 | the cleaned Unbox category contains no underscore |
| `Normalize.CleanCategoryTrimmed` | script.js:108 | the cleaned category neither starts nor ends in whitespace |
| `Normalize.CleanCategoryExample` | script.js:108 | "protein_supplements" is cleaned to "protein" |
| `Normalize.CleanCategoryCanBeEmpty` | script.js:108 | "supplements" is cleaned to the empty string; nothing prevents an empty category |
| `Normalize.CleanCategoryFirstOnly` | script.js:108 | only the first "supplements" is removed: "supplements_supplements" becomes "supplements" |
| `Normalize.MapEntriesStep` | script.js:63-71 | handling one more entry appends exactly that entry's record |
| `Normalize.BucketCount` | script.js:62-71 | a present bucket yields one record of its status per entry, an absent bucket none |
| `Normalize.BucketShape` | script.js:62-71 | every record of a bucket carries the category label and the normalizer's per-record guarantees |
| `Normalize.MapEntriesCount` | script.js:63-71 | every record of a bucket carries that bucket's status |
| `Normalize.CategoryRecords` | script.js:59-100 | one category's records: for Unbox the pass, not_healthy and fail buckets under the cleaned category, otherwise pass, fail and expired-as-pending |
| `Normalize.Normalized` | script.js:56-194 | a normalizer's whole output: every category's records, in enumeration order |
| `Normalize.CategoryCount` | script.js:59-100 | one category yields, per status, exactly as many records as the bucket mapped to that status has entries (zero when absent) |
| `Normalize.NormalizedCount` | script.js:56-194 | per status, a normalizer emits exactly one record per entry of the bucket feeding that status; expired feeds pending, Unbox has no pending bucket, only Unbox has not_healthy |
| `Normalize.NormalizedLength` | script.js:56-194 | output length is the total number of entries in the present buckets the normalizer reads |
| `Normalize.CategoryRecordsShape` | script.js:107-149 | all records of one category share its label (for Unbox the cleaned name) and the normalizer's per-record guarantees |
| `Normalize.NormalizedShape` | script.js:56-194 | every output record has the normalizer's source label, status range and link guarantee, and carries the label of one of the input categories |
| `Records.OrElse` | script.js:69 | `v || fallback` yields v when it is present and non-empty, the fallback otherwise |
| `Records.Count` | script.js:260-263 | a status is counted at most once per record |
| `Records.CountsPartition` | script.js:259-263 | the four per-status counts add up to the number of records |
| `Stats.ComputeCounts` | script.js:258-263 | total is the number of records; each status count is that status's count; the four add up to the total |
| `Chart.LargeArcFlag` | script.js:382 | the large-arc flag is 0 or 1 |
| `Chart.ChartSegments` | script.js:279-284 | four segments in the order pass, not_healthy, fail, pending, each with its status's count as a percentage of the total |
| `Chart.Layout` | script.js:302-339 | the slices drawn from a start angle; at most one per segment |
| `Chart.NonZero` | script.js:305 | a segment is kept exactly when it is in the input and its percentage is not zero |
| `Chart.NonZeroSubsequence` | script.js:304-305 | the kept segments keep their input order |
| `Chart.NonZeroMultiset` | script.js:304-305 | each non-zero segment is kept as often as it occurs, each zero one dropped |
| `Chart.LayoutSlices` | script.js:304-309 | one slice per non-zero segment, in order, with that segment's status, spanning percentage/100 times 360, large arc exactly when the span exceeds 180 |
| `Chart.LayoutContiguous` | script.js:302-339 | the first slice starts at the start angle, each slice starts where the previous ended, the last ends after the total span |
| `Chart.DrawPieChart` | script.js:302-340 | the loop over segments with `currentAngle` yields exactly `Layout(segments, 0)` |
| `Chart.SpanMajority` | script.js:274-307 | a count's slice spans count/total times 360 degrees, which is over 180 exactly when 2 times count exceeds total |
| `Chart.ChartTotalSpan` | script.js:274-284 | the four segments of `updateStats` together span 360 degrees |
| `Chart.StatsChartCloses` | script.js:273-284 | with at least one record the chart has a slice, starts at 0 and ends at 360 |
| `Chart.StatsChartLargeArc` | script.js:382 | every chart slice has positive span, and takes the large arc exactly when its status holds a strict majority of the records |
| `Chart.UpdateStats` | script.js:258-286 | counts are computed; a chart is drawn exactly when there is a record, and it closes the circle |
| `Filter.MatchesQuery` | script.js:395-402 | an empty query matches; otherwise the lower-cased query occurs in the lower-cased name or category |
| `Filter.Keep` | script.js:398-403 | a record passes when the filter is 'all' or its status, and it matches the query |
| `Filter.Visible` | script.js:397-404 | the records passing `Keep`, in order; never more than there are records |
| `Filter.VisibleIsSubsequence` | script.js:397-404 | the shown records are an order-preserving subsequence of all records |
| `Filter.VisibleMembers` | script.js:397-404 | a record is shown exactly when it is loaded, matches the status filter (or the filter is 'all') and the query is empty or contained, case-insensitively, in its name or category |
| `Filter.VisibleMultiset` | script.js:397-404 | every copy of a passing record is shown and every copy of a failing one hidden: occurrence counts are kept or zeroed |
| `Filter.VisibleEverything` | script.js:397-404 | filter 'all' with an empty query shows every record, in order |
| `Filter.VisibleStatus` | script.js:399 | a status filter with an empty query shows exactly the records of that status, as many as the count |
| `Filter.SearchIgnoresCase` | script.js:395 | a query and its lower-case form show the same records |
| `Filter.CategoryQueryShowsCategory` | script.js:448-451 | searching for a category shows every record of that category |
| `Filter.SingleLetterQueryFilters` | script.js:402 | the one-letter query "a" hides a record named "b" in category "c" |
| `Strings.Lower` | script.js:395 | lowercasing keeps the length, maps each character, and leaves no ASCII capital |
| `Strings.Includes` | script.js:402 | `includes` holds exactly when the pattern occurs at some position |
| `Strings.IndexOf` | script.js:402 | the result is the first position where the pattern occurs, or none when it occurs nowhere |
| `Strings.ReplaceChar` | script.js:108 | every `_` becomes a space, every other character is kept |
| `Strings.RemoveFirst` | script.js:108 | removing a pattern never lengthens the string |
| `Strings.RemoveFirstSpec` | script.js:108 | without an occurrence nothing changes; otherwise exactly the first occurrence is cut out and no character is introduced |
| `Strings.TrimStartSuffix` | script.js:108 | trimming the start keeps a suffix of the string |
| `Strings.TrimStartDropsWhitespace` | script.js:108 | every character dropped at the start is whitespace |
| `Strings.TrimStartHead` | script.js:108 | what is left after trimming the start does not begin with whitespace |
| `Strings.TrimEndPrefix` | script.js:108 | trimming the end keeps a prefix of the string |
| `Strings.TrimEndDropsWhitespace` | script.js:108 | every character dropped at the end is whitespace |
| `Strings.TrimEndLast` | script.js:108 | what is left after trimming the end does not end with whitespace |
| `Strings.TrimInfix` | script.js:108 | the trimmed string is the infix between a whitespace prefix and a whitespace suffix |
| `Strings.TrimEnds` | script.js:108 | the trimmed string neither starts nor ends in whitespace |
| `Strings.TrimMultiset` | script.js:108 | trimming introduces no character |
| `Strings.Trim` | script.js:108 | trimming never lengthens the string |
| `Strings.TrimIdempotent` | script.js:108 | trimming twice equals trimming once |
| `Dashboard.DashboardState.constructor` | script.js:16-17 | no records, filter 'all', empty search box |
| `Dashboard.DashboardState.VisibleRecords` | script.js:394-404 | the shown records are a subsequence of `allProducts`, a record is shown exactly when it passes the filter and the query, and every copy of a passing record is shown |
| `Dashboard.DashboardState.LoadData` | script.js:20-47 | `allProducts` is Trustified, then Unbox, then Open Data normalized output; filter and query unchanged; counts and chart are those of `updateStats` |
| `Dashboard.DashboardState.FilterByStatus` | script.js:410-427 | the filter toggles between the status and 'all', the query is cleared, records unchanged; then exactly the records of that status are shown, or all records |
| `Dashboard.DashboardState.OnSearchInput` | script.js:457-461 | the filter is reset to 'all', the query is the typed text, records unchanged |
| `Dashboard.DashboardState.FilterByCategory` | script.js:448-454 | filter 'all', query set to the category, records unchanged; every record of the category is shown |
| `Dashboard.DashboardState.ResetFilters` | script.js:356-362 | filter 'all', empty query, records unchanged, every record shown |
| `Dashboard.ClickSliceTwice` | script.js:410-420 | clicking the same slice twice, from any filter other than that slice's, returns to 'all' with an empty query |
| `Dashboard.LoadedCounts` | script.js:43 | after loading, each status count is the number of entries feeding that status across the three datasets |

## Left out

- Fetching the three files, `Promise.all`, `.json()` and the catch-all error message of `loadData`. These are network I/O. `LoadData` receives the three parsed datasets.
- Malformed JSON shapes are not modelled. Examples are a category value that is `null`, a bucket that is not an array, or an entry without `name`. In the source these throw or yield `undefined` fields; the model's types rule them out.
- `Object.entries` lists integer-like keys first, in ascending order. A dataset here is the sequence of categories already in enumeration order.
- Strings.Lower: models `toLowerCase` on ASCII letters only. Other letters are left unchanged, because full Unicode case mapping is outside the model.
- Rendering is not modelled: card construction, status labels, CSS class names, the stagger delay, and the regex-based search highlighting (which uses the raw query as a regular expression).
- SVG path coordinates (`Math.cos`/`Math.sin`) and path-string formatting in `createDonutSegment`. Only the angles and the large-arc flag are modelled.
- Percentages and angles are exact reals, not IEEE doubles. Rounding error, and the exact `=== 0` test on floats, are therefore not captured.
- Hover effects, `updateChartHighlight` styling, `window.scrollTo`, the disclaimer modal timer and the mouse-follower cursor. These are cosmetic DOM effects with no data logic.
- The centre-click handler is attached only when the chart is drawn, so it does not exist with zero records. `ResetFilters` is modelled as always available.
- The search box is assumed empty when the page loads. The constructor starts with an empty query.
- A category click passes the category through an HTML `onclick` attribute holding a single-quoted JavaScript literal, escaping only `'`. A category containing `\`, `"` or an `&...;` character reference reaches `filterByCategory` altered. `FilterByCategory` takes the category as it arrives and does not model that quoting.
- Text typed into the search box while the three fetches are pending is ignored by the first render after loading, which shows all of `allProducts`. `LoadData` keeps the query, so `VisibleRecords()` after it is the filtered list. This asynchronous gap is not modelled.
- The text of the stat counters (`textContent`) is represented by the returned counts.
