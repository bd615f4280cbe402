# SODA data collection, modelled in Dafny

SODA ("sunscreen on demand analysis") is a set of Python scripts that pull
search-trend data from the Naver Open API and UV-B readings from the Korea
Meteorological Administration (KMA), and then tabulate them:

- `src/naver_api.py` holds three API clients:
  - `NaverDataLab`: search trends.
  - `NaverShopping` and `NaverBlog`: paged search.
  - Each client also converts its responses into tables.
- `src/collect_dataset_3.py` builds two monthly tables and joins them on
  date, adding season labels:
  - KMA noon UV-B averages per month.
  - Naver search volume for three UV keywords.
- `src/collect_segments_detailed.py` and `src/collect_dataset_4.py` query
  four keywords for six audience segments (age band and gender). They
  average each pair, rank the segments and print cross tables:
  - flags at 0.8 of a sport's maximum;
  - blue-ocean candidates at 0.5 of the maximum;
  - quadrants against the means.
  The second script also builds a long-format table and a segment-by-keyword
  pivot.
- `src/collect_dataset_2.py` averages five winter-activity keyword groups
  per month and ranks them by their winter (Dec, Jan, Feb) mean.
- `tests/naver-api-test.py` checks the keys, calls the three endpoints once
  and tallies passes.

The model keeps each script's structure:
- **Loops become methods.** Each loop is a `method` with a `while`/`for`
  loop, and the method is proved equal to a specification function.
- **Properties are proved on the functions.** What the scripts promise is
  proved as lemmas about those functions: ranking order and permutation,
  quadrant partition, round trips of date formats and integer text, paging
  bounds, and table shapes.
- **Network calls are parameters:**
  - `TrendPost` is a function from a request body to a transport outcome.
  - `SearchGet` / `PageFetch` do the same for paged search.
  - `UvFetch` maps a `tm` string to the response text, or to nothing on
    failure.
- **Float parsing is a parameter** (`FloatParse`), a partial function from
  text to a real.
- **Dictionaries** whose insertion order matters are sequences of entries
  (module `Dicts`).

One file per module:

| file | module | models |
|---|---|---|
| `wrappers.dfy` | `Wrappers` | `Option`, `Result` |
| `stats.dfy` | `Stats` | sum, mean, max, min, `int()` truncation |
| `text.dfy` | `Text` | `replace`, `strip`, `split`, zero padding, decimal text |
| `calendar.dfy` | `Calendar` | `calendar.monthrange`, `%Y%m%d`, season labels |
| `dicts.dfy` | `Dicts` | insertion-ordered dicts, nested dicts, list concatenation |
| `ranking.dfy` | `Ranking` | `sorted(..., reverse=True)` and `enumerate(..., 1)` |
| `naver_http.dfy` | `NaverHttp` | the status check every client performs |
| `naver_datalab.dfy` | `NaverDataLab` | `get_search_trend`, `NaverDataLab.to_dataframe` |
| `naver_search.dfy` | `NaverSearch` | `search_products`, `search_blogs`, `get_all_*` |
| `naver_markup.dfy` | `NaverMarkup` | `re.sub('<.*?>', '', x)` |
| `naver_tables.dfy` | `NaverSearchTables` | shopping and blog `to_dataframe` |
| `uv_dataset.dfy` | `UvDataset` | the KMA parser, daily/monthly queries, month enumeration, records |
| `uv_search.dfy` | `UvSearch` | `collect_naver_uv_search`, `merge_and_analyze` |
| `segment_rules.dfy` | `SegmentRules` | quadrants, blue-ocean lists, flags, bars (shared by the segment scripts) |
| `segments_detailed.dfy` | `SegmentsDetailed` | `collect_all_segments` |
| `segment_dataset.dfy` | `SegmentDataset` | `collect_dataset_4.main` |
| `winter_activities.dfy` | `WinterActivities` | `collect_dataset_2` |
| `api_test.dfy` | `ApiTest` | the connection test script |

`get_search_trend` documents at most five keywords in its docstring
(`src/naver_api.py:22`) but does not check the count; the model, like the
code, sends any number.

## Model

| member | source | states |
|---|---|---|
| NaverHttp.CheckStatus | src/naver_api.py:62-68 | success exactly on status 200, with the parsed body; any other status raises with that status (and the response text for the trend and shopping clients); a failed transport raises |
| NaverDataLab.GroupsOfAt | src/naver_api.py:31-37 | one keyword group per keyword, in order, named after it and holding only it |
| NaverDataLab.TrendBodyOf | src/naver_api.py:31-53 | the request body built from the arguments |
| NaverDataLab.TrendBodyShape | src/naver_api.py:31-53 | the body has one group per keyword; start and end dates lose every hyphen and keep every other character; the time unit is passed through; device, gender and ages appear exactly when non-empty and then hold the argument |
| NaverDataLab.GroupNamesRoundTrip | src/naver_api.py:31-37 | reading the group names back from the body gives the keyword list |
| NaverDataLab.ExtendedToBasic | src/naver_api.py:41-42 | a YYYY-MM-DD date becomes YYYYMMDD with its digits unchanged |
| NaverDataLab.StripsExampleDate | src/naver_api.py:41 | "2024-01-01" is sent as "20240101" |
| NaverDataLab.BuildTrendBody | src/naver_api.py:31-53 | the loop appending groups and the optional keys builds exactly the specified body |
| NaverDataLab.SearchTrend | src/naver_api.py:16-68 | get_search_trend: the body posted once, results on status 200, the status error otherwise |
| NaverDataLab.GetSearchTrend | src/naver_api.py:16-68 | posts that body once; results exactly on status 200, the status (and text) otherwise |
| NaverDataLab.Periods | src/naver_api.py:75 | the date column is the periods of the first result, in order |
| NaverDataLab.Ratios | src/naver_api.py:83 | a keyword column is its result's ratios, in order |
| NaverDataLab.LookupLength | src/naver_api.py:80-84 | in a table whose columns all have n values, any column looked up has n values |
| NaverDataLab.ToDataFrame | src/naver_api.py:70-89 | the conversion loop computes the specified table or error |
| NaverDataLab.SetColumn | src/naver_api.py:84 | `df[name] = values`: replaces the column of that name, else appends one |
| NaverDataLab.SetColumnLookup | src/naver_api.py:84 | `df[keyword] = ratios` makes that name read back the new values and leaves every other column as it was |
| NaverDataLab.SetColumnNames | src/naver_api.py:84 | the column names after an assignment are the old ones plus the assigned name |
| NaverDataLab.SetColumnDistinct | src/naver_api.py:84 | assigning a column never duplicates a column name |
| NaverDataLab.SetColumnLengths | src/naver_api.py:84 | assigning a column of the table's length keeps every column that length |
| NaverDataLab.SetColumnAppends | src/naver_api.py:84 | a new name is appended at the end |
| NaverDataLab.AddColumns | src/naver_api.py:81-84 | the loop over the results: each result's ratios assigned under its title, a length mismatch raising |
| NaverDataLab.LastWithTitle | src/naver_api.py:81-84 | the ratios of the last result with a title, which is what its column holds after the loop |
| NaverDataLab.AddColumnsFacts | src/naver_api.py:81-84 | the loop succeeds exactly when every result has one ratio per date; then each name holds the ratios of the last result with that title |
| NaverDataLab.FrameOf | src/naver_api.py:70-89 | to_dataframe: the first result's periods as the dates, then one column per title |
| NaverDataLab.FrameShape | src/naver_api.py:72-89 | the table exists exactly when there is a first result and every result has as many points as it; its dates are the first result's periods |
| NaverDataLab.FrameColumns | src/naver_api.py:81-84 | each title's column holds the ratios of the last result with that title; other names are absent |
| NaverDataLab.AddDistinctColumns | src/naver_api.py:81-84 | with distinct new titles the loop appends one column per result, in order |
| NaverDataLab.FrameOfDistinctTitles | src/naver_api.py:70-89 | with distinct titles of equal length, the table is the first result's dates and one column per result, in order |
| NaverSearch.SearchProducts | src/naver_api.py:100-127 | search_products: the page on status 200, else an error with the status and the text |
| NaverSearch.SearchBlogs | src/naver_api.py:173-192 | search_blogs: the page on status 200, else an error with the status only |
| NaverSearch.Collected | src/naver_api.py:129-146 | the items gathered from an offset on: a failed request stops, a short page is kept and stops, a full page continues 100 further while below max_results |
| NaverSearch.Requested | src/naver_api.py:133-144 | the offsets requested from an offset on, by the same rule |
| NaverSearch.PageStep | src/naver_api.py:133-144 | one request: an error or a short page ends the collection there; a full page continues from the next offset |
| NaverSearch.CollectPages | src/naver_api.py:129-146 | the paging loop returns exactly the specified items and requests exactly the specified offsets |
| NaverSearch.GetAllProducts | src/naver_api.py:129-146 | get_all_products pages search_products (100 per page, sort "sim") from offset 1 |
| NaverSearch.GetAllBlogs | src/naver_api.py:194-211 | get_all_blogs pages search_blogs the same way |
| NaverSearch.RequestedOffsets | src/naver_api.py:133 | the offsets requested are 1, 101, 201, ... in order, all below max_results, and no more than the range holds |
| NaverSearch.PagesAt | src/naver_api.py:135-137 | the pages fetched at the requested offsets, one per offset, in order |
| NaverSearch.CollectedIsFlattenedPages | src/naver_api.py:133-144 | the items are the requested pages concatenated in order (an error page contributes nothing) |
| NaverSearch.RequestedFullPages | src/naver_api.py:139-144 | every page before the last was a full page of 100; a full last page means the range ran out |
| NaverSearch.CollectedIsRequestedPages | src/naver_api.py:129-146 | both facts together |
| NaverSearch.CatalogFrom | src/naver_api.py:133-140 | against a server holding a fixed list, collection from page j on yields the list from item 100·j up to the range's end |
| NaverSearch.PagingACatalog | src/naver_api.py:129-146 | against a fixed list of n items the result is its first min(n, 100·pages) items, in order, using min(pages, n div 100 + 1) requests |
| NaverSearch.PagingExample | src/naver_api.py:129-146 | 237 items with max_results 500: requests at 1, 101, 201 and all 237 items |
| NaverMarkup.FindClose | src/naver_api.py:160 | the first '>' before any newline (the lazy `.*?` does not cross a line), or none |
| NaverMarkup.StripTags | src/naver_api.py:160 | `re.sub('<.*?>', '', x)` never lengthens the text |
| NaverMarkup.StripKeepsLineWithoutClose | src/naver_api.py:160 | stripping never brings a '>' onto a line that had none |
| NaverMarkup.StripLeavesNoTag | src/naver_api.py:160 | the result contains no '<' that has a '>' later on its line |
| NaverMarkup.StripTagFree | src/naver_api.py:160 | tag-free text is left unchanged |
| NaverMarkup.StripIdempotent | src/naver_api.py:160 | stripping twice equals stripping once |
| NaverMarkup.StripExample | src/naver_api.py:160 | "<b>Sun Cream</b>" becomes "Sun Cream" |
| NaverMarkup.StripPlainPrefix | src/naver_api.py:160 | a prefix without '<' is kept as it is |
| NaverSearchTables.ColumnsOf | src/naver_api.py:152 | the columns are exactly the field names that occur in some item |
| NaverSearchTables.ParseSigned | src/naver_api.py:155 | `int()` of '-' followed by digits is minus their value |
| NaverSearchTables.ParseUnsigned | src/naver_api.py:155 | `int()` of a digit string is its value |
| NaverSearchTables.ParseNegative | src/naver_api.py:155 | `int("-" + str(m))` is -m |
| NaverSearchTables.ParseNatural | src/naver_api.py:155 | `int(str(m))` is m |
| NaverSearchTables.ParseInt | src/naver_api.py:155-157 | `astype(int)` on one cell: `int()` of the text, and only a value within the 64-bit range casts |
| NaverSearchTables.ParseIntRoundTrip | src/naver_api.py:155-157 | `int(str(n)) == n` for every 64-bit integer |
| NaverSearchTables.ParseIntOverflow | src/naver_api.py:155-157 | a number outside the 64-bit range does not cast (OverflowError) |
| NaverSearchTables.ProductsToTable | src/naver_api.py:148-162 | the shopping `to_dataframe`: lprice cast, hprice cast only when that column exists, titles stripped; the first failing step raises |
| NaverSearchTables.ProductsTable | src/naver_api.py:148-162 | the table exists exactly when there are items, every item has an lprice that casts to a 64-bit integer and a title, and every item has such an hprice if any has one |
| NaverSearchTables.ProductsRows | src/naver_api.py:152-161 | each row has every column of the table, the prices as integers, the title stripped and tag-free, and other fields unchanged |
| NaverSearchTables.ProductRow | src/naver_api.py:155-160 | one row of the shopping table |
| NaverSearchTables.ProductRowFacts | src/naver_api.py:155-160 | the same for one row |
| NaverSearchTables.BlogsToTable | src/naver_api.py:213-226 | the blog `to_dataframe`: titles and descriptions stripped, postdate parsed with `%Y%m%d`; the first failing step raises |
| NaverSearchTables.BlogsTable | src/naver_api.py:213-226 | the table exists exactly when every item has a title and a description, some item has a postdate, and every postdate is a real 8-digit date; rows hold stripped, tag-free text and the parsed day (NaT where absent) |
| NaverSearchTables.BlogRow | src/naver_api.py:220-224 | one row of the blog table |
| NaverSearchTables.BlogRowFacts | src/naver_api.py:220-224 | the same for one row |
| NaverSearchTables.BlogPostdateRoundTrip | src/naver_api.py:224 | a postdate written with `%Y%m%d` reads back as the same day |
| NaverSearchTables.ProductsToTableCoerced | src/naver_api.py:148-162 | the corrected conversion: a missing or non-numeric price reads as 0 instead of raising |
| NaverSearchTables.CoercedRowAgrees | src/naver_api.py:155-157 | where both prices cast, the coerced row equals the cast row |
| NaverSearchTables.CoercionNeverFailsOnPrice | src/naver_api.py:155-157 | with coercion, no price value can make the conversion fail |
| NaverSearchTables.CoercionAgrees | src/naver_api.py:148-162 | wherever the code's conversion succeeds, the coerced one gives the same table |
| NaverSearchTables.EmptyHpriceRaises | src/naver_api.py:156-157 | an item whose hprice is "" makes the conversion raise; coercion gives 0 |
| Calendar.DaysInMonth | src/collect_dataset_3.py:122 | `calendar.monthrange(y, m)[1]`: 28 to 31; February has 29 exactly in leap years; 30 for Apr, Jun, Sep, Nov; 31 otherwise |
| Calendar.CompactDate | src/collect_dataset_3.py:85 | `%Y%m%d` is 8 digits |
| Calendar.ParseCompactDate | src/naver_api.py:224 | a parsed `%Y%m%d` date is a real calendar date |
| Calendar.CompactDateRoundTrip | src/naver_api.py:224 | formatting a date and parsing it back gives the date |
| Calendar.SeasonLabel | src/collect_dataset_3.py:367-369 | the Korean label written into the `season` column |
| Calendar.SeasonOf | src/collect_dataset_3.py:367-369 | 겨울 exactly for months 12, 1, 2; 여름 exactly for 6, 7, 8; 기타 for the rest |
| Text.RemoveAll | src/collect_dataset_3.py:318 | `s.replace(c, '')` removes every c and keeps the count of every other character |
| Text.RemoveAllConcat | src/collect_dataset_3.py:318 | removal distributes over concatenation |
| Text.RemoveAllAbsent | src/collect_dataset_3.py:318 | text without c is unchanged |
| Text.ReplaceAll | src/collect_segments_detailed.py:128 | `s.replace(c, d)` changes exactly the c positions to d |
| Text.Decimal | src/naver_api.py:155 | `str(n)` is a non-empty digit string, one digit exactly below 10 |
| Text.DecimalValue | src/naver_api.py:155 | the value of `str(n)` is n |
| Text.DecimalLength | src/collect_dataset_3.py:85 | n between 10^(k-1) and 10^k has k digits |
| Text.ZeroPad | src/collect_dataset_3.py:85 | `f"{n:0wd}"` is digits of value n, width max(w, digits of n) |
| Text.ZeroPadWidth | src/collect_dataset_3.py:194 | below 10^w the padded text is exactly w digits |
| Text.LeadingZeros | src/collect_dataset_3.py:85 | leading zeros do not change a digit string's value |
| Text.LessTransitive | src/collect_dataset_4.py:168 | Python's string order is transitive |
| Text.LessTotal | src/collect_dataset_4.py:168 | two different strings are ordered one way or the other |
| Text.InsertKey | src/collect_dataset_4.py:168 | inserting into an ascending list keeps it ascending, adding exactly the new key |
| Text.AscendingUnique | src/collect_dataset_4.py:168 | an ascending list is determined by its elements, so the sorted group keys are unique |
| Text.Strip | src/collect_dataset_3.py:39-43 | `str.strip()` leaves no whitespace at either end |
| Text.StripFacts | src/collect_dataset_3.py:39-43 | `str.strip()` is the slice of the text between its leading and its trailing whitespace: everything before the slice and after it is whitespace, and nothing else is removed |
| Text.LeadingSpaces | src/collect_dataset_3.py:43 | the length of the leading whitespace: every character before it is whitespace and the one at it is not |
| Text.TrimLeftLeading | src/collect_dataset_3.py:43 | `lstrip()` drops exactly the leading whitespace run |
| Text.TrimLeft | src/collect_dataset_3.py:43 | `lstrip()` keeps a suffix, starting with a non-space, and every character it drops is whitespace |
| Text.TrimRight | src/collect_dataset_3.py:43 | `rstrip()` keeps a prefix, ending with a non-space, and every character it drops is whitespace |
| Text.Split | src/collect_dataset_3.py:39 | `split('\n')` gives at least one piece, none containing the separator |
| Text.SplitJoin | src/collect_dataset_3.py:39 | joining the pieces with the separator gives the text back |
| Text.Fields | src/collect_dataset_3.py:49 | `split()` gives non-empty runs without whitespace, the first starting with the text's first character |
| Text.FieldsAtSpace | src/collect_dataset_3.py:49 | a whitespace character separates: the fields of a + [c] + b are the fields of a followed by those of b |
| Text.FieldsWord | src/collect_dataset_3.py:49 | a non-empty run without whitespace is exactly one field |
| Text.FieldsSpaces | src/collect_dataset_3.py:49 | whitespace alone has no field; with the two lemmas above, the fields are the maximal non-space runs in order |
| Text.FieldsStep | src/collect_dataset_3.py:49 | a non-space character joins the first field of what follows it, or starts a field of its own before a space or the end |
| Stats.MaxOf | src/collect_dataset_3.py:64 | `max` is an element and bounds all the others |
| Stats.MinOf | src/collect_dataset_3.py:65 | `min` is an element and is bounded by all the others |
| Stats.SumBounds | src/collect_dataset_3.py:63 | n values within [lo, hi] sum to within [n·lo, n·hi] |
| Stats.ColumnMean | src/collect_dataset_3.py:335 | `Series.mean()`: the sum over the count |
| Stats.MeanWithin | src/collect_dataset_3.py:63 | a mean lies within any bounds on the values |
| Stats.MeanBetween | src/collect_dataset_3.py:63-65 | min ≤ mean ≤ max |
| Stats.SumNonNegative | src/collect_dataset_3.py:56-63 | non-negative values have a non-negative sum |
| Stats.ZeroColumn | src/collect_dataset_3.py:328 | `df[col] = 0` fills n zeros |
| Stats.Across | src/collect_dataset_3.py:335 | a row across columns holds each column's value at that row |
| Stats.RowMeans | src/collect_dataset_3.py:335 | `mean(axis=1)` has one value per row |
| Stats.Trunc | src/collect_segments_detailed.py:155 | `int(x)` truncates toward zero |
| Dicts.GetOr | src/collect_segments_detailed.py:171 | `d.get(k, 0)` is the value when present, the default otherwise |
| Dicts.Keys | src/collect_segments_detailed.py:152 | the keys in insertion order |
| Dicts.Values | src/collect_segments_detailed.py:189 | the values in insertion order |
| Dicts.AssignGet | src/collect_segments_detailed.py:125 | after `d[k] = v`, k reads v and every other key reads as before |
| Dicts.AssignFresh | src/collect_segments_detailed.py:125 | a new key is appended at the end |
| Dicts.GetAt | src/collect_segments_detailed.py:204 | with distinct keys each entry's key reads back its value |
| Dicts.GetAbsent | src/collect_segments_detailed.py:171 | a key not present reads back nothing |
| Dicts.FilledInOrder | src/collect_segments_detailed.py:102-139 | assigning distinct names in turn gives one entry per name, in order |
| Dicts.NestedKeys | src/collect_segments_detailed.py:98-100 | the outer dict's keys are exactly the keys assigned |
| Dicts.NestedAt | src/collect_segments_detailed.py:98-100 | with distinct keys each key holds its own row |
| Dicts.NestedRows | src/collect_segments_detailed.py:98-100 | every row held is one of the rows assigned |
| Dicts.FlattenCons | src/collect_dataset_4.py:126-136 | the first part comes first in the concatenation |
| Dicts.FlattenLength | src/collect_dataset_4.py:126-136 | parts of at most m items concatenate to at most (number of parts)·m |
| Ranking.InsertCounts | src/collect_segments_detailed.py:152 | insertion adds exactly one element, as a multiset |
| Ranking.InsertDescending | src/collect_segments_detailed.py:152 | insertion keeps the order non-increasing |
| Ranking.SortDescending | src/collect_segments_detailed.py:152 | the result is non-increasing by value, a permutation of the input, and stable: the entries of each value keep their input order |
| Ranking.InsertWithValue | src/collect_segments_detailed.py:152 | insertion puts an entry ahead of every entry of its own value, which makes the sort stable |
| Ranking.Ranked | src/collect_segments_detailed.py:154 | ranks 1..n in sorted order |
| Ranking.RankingIsOrderedPermutation | src/collect_segments_detailed.py:152-154 | the ranking lists every entry once, numbered from 1, in non-increasing order of value |
| UvDataset.LineValue | src/collect_dataset_3.py:42-59 | a blank, '#', '\|' or '-' line and a line of fewer than 7 fields give nothing; otherwise field 5 gives a value exactly when it parses and is not negative |
| UvDataset.ValuesOf | src/collect_dataset_3.py:40-59 | every kept value is non-negative, at most one per line |
| UvDataset.ParseUv | src/collect_dataset_3.py:32-69 | parse_kma_uv_response: the values kept from the lines, summarised |
| UvDataset.Summarize | src/collect_dataset_3.py:61-69 | None exactly when nothing was kept; otherwise the count and the mean of the values |
| UvDataset.ReadLine | src/collect_dataset_3.py:43-59 | the loop body reads one line as specified |
| UvDataset.ParseKmaUvResponse | src/collect_dataset_3.py:32-69 | the parsing loop computes the specified summary |
| UvDataset.SummaryOf | src/collect_dataset_3.py:61-69 | the returned dict: sum/len, max, min, len |
| UvDataset.ValuesOfConcat | src/collect_dataset_3.py:42-59 | the values of consecutive blocks of lines are consecutive |
| UvDataset.LineContribution | src/collect_dataset_3.py:42-59 | a line that gives nothing does not change the values around it; one that gives a value inserts it in place |
| UvDataset.ValuesCount | src/collect_dataset_3.py:40-59 | the number of kept values is the number of contributing lines |
| UvDataset.ParseUvSummary | src/collect_dataset_3.py:32-69 | None exactly when no line contributes; otherwise the summary's count is the number of contributing lines and its mean lies between its min and max |
| UvDataset.Timestamp | src/collect_dataset_3.py:85 | the `tm` value starts with the day's `%Y%m%d` and is all digits |
| UvDataset.TimestampLength | src/collect_dataset_3.py:85 | an hour and a minute below 100 give 12 characters |
| UvDataset.NoonTimestamp | src/collect_dataset_3.py:85-130 | the noon query is 12 digits ending in 1200, and its first 8 read back as the day |
| UvDataset.DailyUv | src/collect_dataset_3.py:95-106 | get_kma_uv_daily at noon: the parsed response, or None when the request fails |
| UvDataset.DayResults | src/collect_dataset_3.py:126-133 | one query result per day |
| UvDataset.KeptAverages | src/collect_dataset_3.py:132-133 | at most one average per day |
| UvDataset.MonthlyOf | src/collect_dataset_3.py:109-147 | on success, total_days is the month's length and at least one day was kept |
| UvDataset.Queries | src/collect_dataset_3.py:126-130 | one query per day |
| UvDataset.KmaUvMonthly | src/collect_dataset_3.py:109-147 | the loop queries each day of the month once, in order, and returns the specified aggregate |
| UvDataset.MonthlySummaryOf | src/collect_dataset_3.py:138-147 | None for no days; otherwise the mean, max, min, count and month length |
| UvDataset.DailyUvNonNegative | src/collect_dataset_3.py:56-106 | a day's average is never negative |
| UvDataset.KeptAveragesFrom | src/collect_dataset_3.py:132-133 | every kept average is one a day reported |
| UvDataset.KeptAveragesEmpty | src/collect_dataset_3.py:132-138 | nothing is kept exactly when every day failed |
| UvDataset.DayResultsAt | src/collect_dataset_3.py:126-130 | result i is the answer for day i+1 |
| UvDataset.MonthlySummary | src/collect_dataset_3.py:109-147 | None exactly when no day has data; otherwise 1 ≤ days ≤ total_days = month length, avg within [min, max], all non-negative |
| UvDataset.FebruaryQueries | src/collect_dataset_3.py:122-126 | February 2024 is queried 29 times, February 2023 28 times |
| UvDataset.FromIndex | src/collect_dataset_3.py:175-179 | the month with a given month index |
| UvDataset.FromMonthIndex | src/collect_dataset_3.py:175-179 | a month is recovered from its index |
| UvDataset.MonthsBetween | src/collect_dataset_3.py:167-179 | the enumeration has the specified number of months |
| UvDataset.MonthsBetweenIndex | src/collect_dataset_3.py:171-179 | the i-th month is i months after the first |
| UvDataset.AdmittedIffAtMostLast | src/collect_dataset_3.py:171 | the loop condition holds exactly up to the end month |
| UvDataset.MonthRange | src/collect_dataset_3.py:167-179 | the while loop enumerates exactly the specified months |
| UvDataset.MonthsInOrder | src/collect_dataset_3.py:167-179 | chronological, without gaps, every month valid, from the start month up to the end month |
| UvDataset.MonthCountFormula | src/collect_dataset_3.py:167-179 | 12·(end year − start year) + end month − start month + 1 months, none if the end is before the start |
| UvDataset.SixtyOneMonths | src/collect_dataset_3.py:150 | the default period February 2020 to February 2025 is 61 months |
| UvDataset.MonthRecord | src/collect_dataset_3.py:193-229 | the record of one month, from that month's aggregate or its failure |
| UvDataset.Records | src/collect_dataset_3.py:188-231 | one record per month, in month order |
| UvDataset.RecordsStep | src/collect_dataset_3.py:231 | each iteration appends its month's record |
| UvDataset.CollectKmaUvMonthlyAvg | src/collect_dataset_3.py:150-243 | the loops produce one record per enumerated month, in order |
| UvDataset.RecordFacts | src/collect_dataset_3.py:193-229 | a record is dated the first of its month; a success carries that month's avg, max and min (min ≤ avg ≤ max, all non-negative), its count of days (at least 1) and a coverage of days/total·100 in (0, 100]; a failure has no aggregates, 0 days, the month length and coverage 0 |
| UvDataset.RecordOf | src/collect_dataset_3.py:193-229 | the result dict of one month, from the month's aggregates or their absence |
| UvDataset.CoverageBounds | src/collect_dataset_3.py:200 | coverage lies in (0, 100] |
| UvSearch.CleanJoined | src/collect_dataset_3.py:318 | two space-free words joined by a space lose only the space |
| UvSearch.UvKeywordNames | src/collect_dataset_3.py:263-318 | the keywords' clean names are 자외선, 자외선차단, UV차단 |
| UvSearch.UvKeywordsAdmissible | src/collect_dataset_3.py:263-267 | those names are distinct and clash with no fixed column |
| UvSearch.SeriesOf | src/collect_dataset_3.py:279-300 | a kept series has dates and one value per date |
| UvSearch.AllSeries | src/collect_dataset_3.py:276-300 | one outcome per keyword |
| UvSearch.FetchAll | src/collect_dataset_3.py:276-300 | the loop issues one monthly request per keyword, in order, and keeps the specified series |
| UvSearch.BaseDates | src/collect_dataset_3.py:305-311 | the dates of the first series longer than every earlier one |
| UvSearch.BaseDatesFacts | src/collect_dataset_3.py:305-314 | a base exists exactly when some keyword has a non-empty series; it is the dates of the first longest series |
| UvSearch.IndexOf | src/collect_dataset_3.py:325 | the first position of a date, if any |
| UvSearch.Align | src/collect_dataset_3.py:321-326 | each base date gets the keyword's value on that date, or 0 |
| UvSearch.KeywordColumn | src/collect_dataset_3.py:317-328 | a keyword contributes its aligned values, or zeros when its request failed |
| UvSearch.ColumnValues | src/collect_dataset_3.py:331-335 | the columns' values, column by column |
| UvSearch.RowOf | src/collect_dataset_3.py:335 | the values of every column at one row |
| UvSearch.KeywordColumns | src/collect_dataset_3.py:317-328 | one column per keyword, named by its clean name, as long as the base |
| UvSearch.AllSeriesWellFormed | src/collect_dataset_3.py:276-300 | every series has as many values as dates |
| UvSearch.ChooseBase | src/collect_dataset_3.py:305-311 | the loop picks the first strictly longer series |
| UvSearch.AddKeywordColumns | src/collect_dataset_3.py:317-328 | the loop adds one column per keyword |
| UvSearch.SearchTable | src/collect_dataset_3.py:305-335 | the table built from the series, or the error raised when no keyword returned data |
| UvSearch.NaverUvSearch | src/collect_dataset_3.py:246-341 | collect_naver_uv_search: one request per keyword, then the table |
| UvSearch.CollectNaverUvSearch | src/collect_dataset_3.py:246-341 | the whole function computes the specified table or raises |
| UvSearch.SearchTableExists | src/collect_dataset_3.py:313-314 | the table exists exactly when some keyword returned data |
| UvSearch.SearchTableColumns | src/collect_dataset_3.py:305-335 | the table has the base dates, one column per keyword named by its clean name and then the index column, all as long as the dates; a failed keyword's column is zeros, a successful one its aligned values |
| UvSearch.OneRequestPerKeyword | src/collect_dataset_3.py:280-285 | series k answers one monthly request naming only keyword k |
| UvSearch.SearchIndexRow | src/collect_dataset_3.py:331-335 | each index value is the mean of that row's keyword values, between their min and max; ratios in [0, 100] give an index in [0, 100] |
| UvSearch.RecordFor | src/collect_dataset_3.py:357-362 | a found weather record has the row's date |
| UvSearch.MergeAndAnalyze | src/collect_dataset_3.py:344-369 | one merged row per search row |
| UvSearch.MergedRows | src/collect_dataset_3.py:354-369 | every search row is kept once, in order, with its date's weather record when one exists, and year, month and season derived from its date |
| UvSearch.RecordDatesDistinct | src/collect_dataset_3.py:193-362 | the weather table has one record per month, so the left join never duplicates a search row |
| UvSearch.RecordsDate | src/collect_dataset_3.py:194 | record i is dated the first of month i |
| UvSearch.RecordOfDate | src/collect_dataset_3.py:194 | a record's date is the first of its month |
| SegmentRules.QuadrantOf | src/collect_segments_detailed.py:283-290 | A exactly when both values reach their means, B exactly when suncream is below and the sport reaches its mean, C and D likewise |
| SegmentRules.InQuadrant | src/collect_segments_detailed.py:279-290 | a quadrant's list is no longer than the segment list |
| SegmentRules.InQuadrantStep | src/collect_segments_detailed.py:279-290 | a segment extends only its own quadrant's list |
| SegmentRules.ClassifyQuadrants | src/collect_segments_detailed.py:272-290 | the loop fills the four lists as specified |
| SegmentRules.QuadrantsPartition | src/collect_dataset_4.py:238-256 | the four lists together hold every segment exactly once |
| SegmentRules.InQuadrantMembers | src/collect_dataset_4.py:245-256 | a segment is in a quadrant's list exactly when its values put it there |
| SegmentRules.NotInQuadrant | src/collect_dataset_4.py:245-256 | a name that is no segment is in no list |
| SegmentRules.BlueOceanCandidate | src/collect_segments_detailed.py:250 | sport value above half the sport's maximum and suncream value below the suncream mean |
| SegmentRules.BlueOceanList | src/collect_segments_detailed.py:245-253 | the listed segments, in order |
| SegmentRules.ListBlueOcean | src/collect_segments_detailed.py:238-256 | the loop lists exactly the candidates, and `found` is false exactly when there are none |
| SegmentRules.BlueOceanMembers | src/collect_dataset_4.py:214-222 | a segment is listed exactly when its sport value exceeds half the maximum and its suncream value is below the mean |
| SegmentRules.NotBlueOcean | src/collect_dataset_4.py:214-222 | a name that is no segment is never listed |
| SegmentRules.TopSegmentListed | src/collect_dataset_4.py:209-219 | with a positive maximum the top segment is listed exactly when its suncream value is below the mean |
| SegmentRules.Flagged | src/collect_segments_detailed.py:215-223 | sport value above 0.8 of the sport's maximum and suncream value below the suncream mean |
| SegmentRules.TableFlags | src/collect_segments_detailed.py:213-225 | at most three flags |
| SegmentRules.TableFlagsFacts | src/collect_segments_detailed.py:213-225 | a sport's label is flagged exactly when its value exceeds 0.8 of its maximum and suncream is below the mean; labels are distinct and from 스키장, 스키, 보드 |
| SegmentRules.FlagsText | src/collect_segments_detailed.py:227 | "-" for no flags, the joined labels otherwise |
| SegmentRules.JoinComma | src/collect_segments_detailed.py:227 | `", ".join` of one part is the part |
| SegmentRules.FlagsNeverDash | src/collect_segments_detailed.py:227 | joined labels are never "-" |
| SegmentRules.DashIffNoFlags | src/collect_segments_detailed.py:213-227 | the cross table shows "-" exactly when no sport flags the segment |
| SegmentRules.FlagImpliesBlueOcean | src/collect_segments_detailed.py:215-250 | with a non-negative maximum a flagged segment is also a blue-ocean candidate |
| SegmentRules.ViewOf | src/collect_segments_detailed.py:238-290 | one sport's listing: its blue-ocean candidates, whether any was found, its mean and the four quadrants |
| SegmentRules.BuildView | src/collect_segments_detailed.py:238-290 | one sport's listing and classification loops compute the specified view |
| SegmentRules.ViewFacts | src/collect_segments_detailed.py:264-290 | the sport mean lies between its min and max, and the quadrants partition the segments |
| SegmentRules.Bar | src/collect_segments_detailed.py:156 | `"█" * n`: n blocks, none for n ≤ 0 |
| SegmentRules.DetailedBar | src/collect_segments_detailed.py:155-156 | `"█" * int(avg / 2)` |
| SegmentRules.DatasetBar | src/collect_dataset_4.py:191 | `"█" * int(avg / 2)` for a positive average, else none |
| SegmentRules.BarsAgree | src/collect_dataset_4.py:191 | both scripts' bars have one block per two points of average, none below 2 |
| SegmentsDetailed.PairAverage | src/collect_segments_detailed.py:108-125 | one pair's request, conversion and mean, or None after an exception |
| SegmentsDetailed.SegmentAverage | src/collect_segments_detailed.py:108-125 | an average exactly when the call and conversion succeed and a result carries the first keyword; then it is that column's mean |
| SegmentsDetailed.CollectPair | src/collect_segments_detailed.py:108-139 | one pair's request, conversion and average, as specified |
| SegmentsDetailed.FileNameShape | src/collect_segments_detailed.py:128 | the file name starts with "03_segment_", the group and "_", ends in ".csv", and keeps no space of the segment name |
| SegmentsDetailed.FileNameExample | src/collect_segments_detailed.py:128 | "선크림" and "20대 여성" give "03_segment_선크림_20대_여성.csv" |
| SegmentsDetailed.SegmentNames | src/collect_segments_detailed.py:163 | one name per segment, in order |
| SegmentsDetailed.GroupNames | src/collect_segments_detailed.py:98 | one name per group, in order |
| SegmentsDetailed.Outcomes | src/collect_segments_detailed.py:102-139 | one outcome per segment, in order |
| SegmentsDetailed.OrZeros | src/collect_segments_detailed.py:137-139 | a failed pair records 0, a successful one its average |
| SegmentsDetailed.GroupRow | src/collect_segments_detailed.py:102-139 | a group's dict after the inner loop: each segment's average, or 0 |
| SegmentsDetailed.AllStats | src/collect_segments_detailed.py:94-141 | all_stats after the outer loop: each group's dict under its name |
| SegmentsDetailed.Rows | src/collect_segments_detailed.py:98-139 | one dict per group |
| SegmentsDetailed.FilesStep | src/collect_segments_detailed.py:128-130 | a successful pair appends its file |
| SegmentsDetailed.Written | src/collect_segments_detailed.py:128-130 | one list of files per group |
| SegmentsDetailed.CollectGroup | src/collect_segments_detailed.py:102-139 | one group's inner loop computes its dict and files |
| SegmentsDetailed.CollectAllSegments | src/collect_segments_detailed.py:94-141 | the loops compute all_stats and the files as specified, and the counter ends at groups × segments |
| SegmentsDetailed.GroupRowInOrder | src/collect_segments_detailed.py:100-139 | with distinct segment names a group's dict has one entry per segment, in order, with that pair's value |
| SegmentsDetailed.AllStatsAt | src/collect_segments_detailed.py:98-100 | with distinct group names each key holds its own group's dict |
| SegmentsDetailed.AllStatsKeys | src/collect_segments_detailed.py:98-100 | the keys of all_stats are the group names |
| SegmentsDetailed.AllStatsRows | src/collect_segments_detailed.py:98-139 | every value of all_stats is a dict over the segments |
| SegmentsDetailed.FilesComplete | src/collect_segments_detailed.py:128-130 | a file is written for each segment whose average was computed, and never more files than segments |
| SegmentsDetailed.FilesSound | src/collect_segments_detailed.py:128-130 | every file written comes from a segment whose average was computed |
| SegmentsDetailed.GroupFilesFacts | src/collect_segments_detailed.py:108-139 | a pair's file is written exactly when its average was computed |
| SegmentsDetailed.AllFilesCount | src/collect_segments_detailed.py:95-141 | at most groups × segments files |
| SegmentsDetailed.SegmentsDistinct | src/collect_segments_detailed.py:65-72 | the six segment names differ |
| SegmentsDetailed.GroupsDistinct | src/collect_segments_detailed.py:75-80 | the four group names differ |
| SegmentsDetailed.ConstantsDistinct | src/collect_segments_detailed.py:65-89 | six segments, four groups, 24 requests |
| SegmentsDetailed.TopIndex | src/collect_segments_detailed.py:181 | `max(..., key=...)` is the first entry holding the largest value |
| SegmentsDetailed.TopIsMaximum | src/collect_segments_detailed.py:178-183 | the top entry's value bounds every value |
| SegmentsDetailed.MatrixRow | src/collect_segments_detailed.py:171 | one value per segment, from the dict or 0 |
| SegmentsDetailed.SegmentValues | src/collect_segments_detailed.py:204-207 | a dict's values in segment order |
| SegmentsDetailed.SuncreamValues | src/collect_segments_detailed.py:204 | the suncream values in segment order |
| SegmentsDetailed.Views | src/collect_segments_detailed.py:238-290 | one view per sport, in order 스키장, 스키, 스노우보드 |
| SegmentsDetailed.SportViews | src/collect_segments_detailed.py:238-290 | the loop over sports computes the specified views |
| SegmentsDetailed.CollectedReady | src/collect_segments_detailed.py:94-141 | the collected statistics always have every key and segment the analysis reads |
| SegmentsDetailed.PairIsNaNFacts | src/collect_segments_detailed.py:108-125 | a pair's average is NaN exactly when its call and conversion succeed and the first keyword's column is empty; all_stats then holds what the model writes as 0 |
| SegmentsDetailed.CollectedReport | src/collect_segments_detailed.py:146-290 | the analysis exists exactly when no pair's average is NaN, since `int(avg_val / 2)` raises at line 155 outside any try block |
| SegmentsDetailed.EmptyPairAborts | src/collect_segments_detailed.py:125-155 | a pair whose first keyword's column has no rows stops the script before the matrix |
| SegmentsDetailed.ReportOf | src/collect_segments_detailed.py:146-290 | the printed analysis of all_stats: rankings, matrix, tops, suncream mean, cross table and per-sport views |
| SegmentsDetailed.CrossRowOf | src/collect_segments_detailed.py:203-229 | one line of the cross table: the arrow against the suncream mean and the flags of the sports above 0.8 of their maximum |
| SegmentsDetailed.FileName | src/collect_segments_detailed.py:128 | the CSV file name of a pair |
| SegmentsDetailed.MatrixCells | src/collect_segments_detailed.py:163-173 | when the analysis is reached, each matrix cell is that pair's average, or 0 after a failure |
| SegmentsDetailed.SuncreamBaseline | src/collect_segments_detailed.py:188-189 | when the analysis is reached, the suncream baseline is the mean of the six suncream values |
| SegmentsDetailed.CrossFlags | src/collect_segments_detailed.py:203-229 | a cross-table line shows "-" exactly when it raises no flag, and a sport's label appears exactly when the segment exceeds 0.8 of the sport's maximum with suncream below its mean |
| SegmentsDetailed.CrossRowFlags | src/collect_segments_detailed.py:213-227 | the same for one line |
| SegmentDataset.KeywordRow | src/collect_dataset_4.py:95-145 | stats_summary[keyword] after the inner loop: each segment's average, or 0 after an exception |
| SegmentDataset.AllRecords | src/collect_dataset_4.py:87-145 | all_data_list after the loops: every pair's records, keyword by keyword and segment by segment |
| SegmentDataset.ReportOf | src/collect_dataset_4.py:183-294 | the printed analysis of stats_summary: rankings, suncream mean, per-sport views and the final blue-ocean summary |
| SegmentDataset.RecordsOf | src/collect_dataset_4.py:126-136 | one record per row of the pair's table, carrying its keyword, segment, gender, age band, volume and date |
| SegmentDataset.PairDataOf | src/collect_dataset_4.py:103-136 | the try block of one pair: its average and records when the call, conversion and keyword column succeed |
| SegmentDataset.PairDataFacts | src/collect_dataset_4.py:103-136 | a pair yields data exactly when the call and conversion succeed and a result carries the keyword; the average is that column's mean and the records its rows |
| SegmentDataset.CollectPair | src/collect_dataset_4.py:103-145 | one pair's request, conversion, average and records, as specified |
| SegmentDataset.Names | src/collect_dataset_4.py:171 | one name per segment, in order |
| SegmentDataset.Each | src/collect_dataset_4.py:97 | one outcome per segment, in order |
| SegmentDataset.Outcomes | src/collect_dataset_4.py:97-145 | outcome i is segment i's pair |
| SegmentDataset.Averages | src/collect_dataset_4.py:123-145 | a failed pair records 0, a successful one its average |
| SegmentDataset.RecordLists | src/collect_dataset_4.py:126-136 | a failed pair appends no records |
| SegmentDataset.Rows | src/collect_dataset_4.py:93-145 | one dict per keyword |
| SegmentDataset.RecordParts | src/collect_dataset_4.py:93-145 | one block of records per keyword |
| SegmentDataset.KeywordStep | src/collect_dataset_4.py:97-145 | one more segment extends the keyword's dict by one assignment and its records by what the pair appends |
| SegmentDataset.CollectKeyword | src/collect_dataset_4.py:95-145 | the inner loop computes the keyword's dict and records |
| SegmentDataset.StatsSummary | src/collect_dataset_4.py:87-147 | stats_summary after the outer loop: each keyword's dict under its name |
| SegmentDataset.CollectDataset | src/collect_dataset_4.py:87-147 | the loops compute stats_summary and all_data_list, and the counter ends at keywords × segments |
| SegmentDataset.PresentKeywords | src/collect_dataset_4.py:168 | the pivot's columns: each keyword that occurs in the records, once, in Python's string order (groupby sorts its keys) |
| SegmentDataset.PivotCell | src/collect_dataset_4.py:168-172 | a cell: NaN for a segment without records, else the mean of its volumes for the keyword, 0 when it has none |
| SegmentDataset.PivotOf | src/collect_dataset_4.py:168-172 | one row per segment in segment order; the columns ascend in string order and are exactly the keywords with records; each cell is that segment's PivotCell |
| SegmentDataset.VolumesForeign | src/collect_dataset_4.py:168 | records of other pairs contribute no volume |
| SegmentDataset.VolumesOwn | src/collect_dataset_4.py:168 | a pair's own records contribute all their volumes, in order |
| SegmentDataset.VolumesOnly | src/collect_dataset_4.py:168 | when only one block holds the pair's records, the whole gives the same volumes |
| SegmentDataset.KeywordRecordsTagged | src/collect_dataset_4.py:126-136 | a keyword's records carry that keyword, and a pair's records carry its segment |
| SegmentDataset.KeywordVolumes | src/collect_dataset_4.py:122-136 | within a keyword's records only its own pair contributes volumes for a segment, and they are the pair's column |
| SegmentDataset.ForeignKeyword | src/collect_dataset_4.py:126-136 | another keyword's records contribute no volume |
| SegmentDataset.AllRecordsKeywords | src/collect_dataset_4.py:126-136 | every record carries one of the requested keywords |
| SegmentDataset.SortedKeywords | src/collect_dataset_4.py:72 | 선크림 < 스노우보드 < 스키 < 스키장 in string order |
| SegmentDataset.PivotColumnOrder | src/collect_dataset_4.py:168-179 | when every keyword produced a record, the saved pivot's columns are 선크림, 스노우보드, 스키, 스키장, not the request order |
| SegmentDataset.PivotMatchesSummary | src/collect_dataset_4.py:122-172 | for a pair whose request succeeded with at least one month, the pivot cell equals the average stats_summary records |
| SegmentDataset.SportsForFacts | src/collect_dataset_4.py:274-279 | a sport is listed exactly when suncream is below its mean and the sport reaches its own mean, in sport order |
| SegmentDataset.SportsAt | src/collect_dataset_4.py:275 | the three sport values of one segment |
| SegmentDataset.BlueSummary | src/collect_dataset_4.py:269-282 | the summary of the first m segments holds at most m entries |
| SegmentDataset.SummaryAt | src/collect_dataset_4.py:269-282 | a segment is in the summary exactly when some sport qualifies, and then it lists the qualifying sports in order |
| SegmentDataset.SummaryIsQuadrantB | src/collect_dataset_4.py:249-278 | a sport is listed for a segment exactly when the segment is in that sport's quadrant B |
| SegmentDataset.BuildSummary | src/collect_dataset_4.py:269-282 | the nested loops build the specified summary |
| SegmentDataset.SegmentsDistinct | src/collect_dataset_4.py:62-69 | the six segment names differ |
| SegmentDataset.KeywordsDistinct | src/collect_dataset_4.py:72 | the four keywords differ |
| SegmentDataset.ConstantsDistinct | src/collect_dataset_4.py:62-72 | both together |
| SegmentDataset.RowKeys | src/collect_dataset_4.py:95-145 | with distinct segment names a keyword's dict is keyed by the segments in order |
| SegmentDataset.CollectedReady | src/collect_dataset_4.py:87-147 | the collected stats_summary always has every key and segment the analysis reads |
| SegmentDataset.Analyze | src/collect_dataset_4.py:185-282 | rankings, per-sport loops and summary loop compute the specified report |
| SegmentDataset.DatasetOf | src/collect_dataset_4.py:87-302 | the run: no dataset without records, else the records, stats_summary, pivot and report |
| SegmentDataset.RunDataset | src/collect_dataset_4.py:87-302 | the whole run computes the specified dataset or error |
| SegmentDataset.DatasetExists | src/collect_dataset_4.py:152-172 | a dataset is produced exactly when some pair produced a record |
| WinterActivities.GroupRequest | src/collect_dataset_2.py:80-85 | one keyword group per keyword, the fixed period without hyphens, by month, no filter |
| WinterActivities.GroupNames | src/collect_dataset_2.py:76 | one name per group, in order |
| WinterActivities.ActivityConstants | src/collect_dataset_2.py:61-67 | five distinct groups, none over the five keywords one request may compare |
| WinterActivities.KeywordColumns | src/collect_dataset_2.py:90 | `df_temp[keywords]` has each keyword's column, or raises when one is missing |
| WinterActivities.KeywordColumnsLength | src/collect_dataset_2.py:90 | the selected columns keep the table's length |
| WinterActivities.GroupSeries | src/collect_dataset_2.py:90 | the group average has one value per date |
| WinterActivities.SeriesBetween | src/collect_dataset_2.py:90 | each group average lies between any bounds on that row's keyword values |
| WinterActivities.SingleKeywordSeries | src/collect_dataset_2.py:65-90 | a one-keyword group (골프) averages to that keyword's column |
| WinterActivities.OutcomeOf | src/collect_dataset_2.py:79-99 | an average only with a table of its length |
| WinterActivities.OutcomeFacts | src/collect_dataset_2.py:79-99 | the table is kept exactly when the call and conversion succeed; the average exists exactly when, in addition, every keyword has a column |
| WinterActivities.Outcomes | src/collect_dataset_2.py:76-99 | one outcome per group, in order |
| WinterActivities.OutcomesConsistent | src/collect_dataset_2.py:79-99 | every average has a table of its own length |
| WinterActivities.SeriesList | src/collect_dataset_2.py:91-99 | all_data: each group's average, or None after an exception |
| WinterActivities.CollectGroups | src/collect_dataset_2.py:76-99 | the loop computes all_data and df_temp as specified |
| WinterActivities.GroupColumn | src/collect_dataset_2.py:115-119 | a group's column is its average, or zeros; a wrong length raises |
| WinterActivities.GroupColumns | src/collect_dataset_2.py:115-119 | on success, one column per group |
| WinterActivities.GroupColumnsFacts | src/collect_dataset_2.py:115-119 | the columns exist exactly when every average has one value per row; column i is then the average or zeros |
| WinterActivities.GroupColumnsErrStays | src/collect_dataset_2.py:115-119 | after a failing column the later groups leave the error unchanged |
| WinterActivities.SeasonColumn | src/collect_dataset_2.py:122-126 | each row's season is 겨울 for months 12, 1, 2, 여름 for 6, 7, 8 and 기타 otherwise |
| WinterActivities.Assemble | src/collect_dataset_2.py:104-126 | the merged table has one column per group, each as long as the dates |
| WinterActivities.BuildTable | src/collect_dataset_2.py:104-126 | the merge loops compute the specified table |
| WinterActivities.BaseAsWritten | src/collect_dataset_2.py:105-109 | as written: once some group has an average, the dates are df_temp's, the last table converted |
| WinterActivities.FirstSeriesDates | src/collect_dataset_2.py:104-109 | the dates of the first group that produced an average |
| WinterActivities.FirstSeriesDatesFacts | src/collect_dataset_2.py:104-109 | the first successful group's dates exist exactly when some group succeeded, and they are that group's dates |
| WinterActivities.CorrectedAssembles | src/collect_dataset_2.py:104-119 | with the first successful group's dates, the merge fails only when two successful groups have tables of different lengths |
| WinterActivities.BasesAgree | src/collect_dataset_2.py:104-109 | when every table has the same dates, the two date columns coincide |
| WinterActivities.LastFrame | src/collect_dataset_2.py:87 | df_temp after the loop: the last table that converted |
| WinterActivities.TableOf | src/collect_dataset_2.py:114-126 | base_df with the group columns and the year, month and season derived from each date |
| WinterActivities.LastFrameFrom | src/collect_dataset_2.py:87 | df_temp ends as the table of some group |
| WinterActivities.StaleFrameOutcomes | src/collect_dataset_2.py:87-99 | the replies of the counterexample give those outcomes |
| WinterActivities.StaleBaseDates | src/collect_dataset_2.py:104-119 | in the counterexample the code's merge raises, the corrected one gives a table |
| WinterActivities.WinterValues | src/collect_dataset_2.py:138 | the values on winter rows only |
| WinterActivities.WinterValuesFacts | src/collect_dataset_2.py:138 | the winter values come from winter rows, and there is one exactly when some row is a winter row |
| WinterActivities.WinterMean | src/collect_dataset_2.py:144 | the mean over winter rows |
| WinterActivities.WinterMeanBetween | src/collect_dataset_2.py:144 | a winter mean lies between any bounds on the winter values |
| WinterActivities.ActivityName | src/collect_dataset_2.py:143 | removing the suffix gives the name back, suffix appended |
| WinterActivities.SuffixedName | src/collect_dataset_2.py:117-143 | a group's column carries the suffix and gives the group back |
| WinterActivities.FixedColumnsSkipped | src/collect_dataset_2.py:141-142 | date, year, month and season do not end in the suffix |
| WinterActivities.WinterAverages | src/collect_dataset_2.py:140-145 | winter_avg after the loop over the first m group columns |
| WinterActivities.WinterAveragesLoop | src/collect_dataset_2.py:140-145 | the loop computes the specified dict |
| WinterActivities.WinterAveragesInOrder | src/collect_dataset_2.py:140-145 | with distinct group names every group gives one entry, named after it, in column order |
| WinterActivities.WinterAveragesStep | src/collect_dataset_2.py:142-145 | a new activity is appended at the end |
| WinterActivities.WinterBar | src/collect_dataset_2.py:151 | a non-negative value draws int(v/5) blocks, none below 5 |
| WinterActivities.WinterDatasetAsWritten | src/collect_dataset_2.py:29-161 | the script as written, with the date column taken from df_temp |
| WinterActivities.WinterDatasetOf | src/collect_dataset_2.py:29-161 | the script with the date column taken from the first group that produced an average |
| WinterActivities.CollectWinterDataset | src/collect_dataset_2.py:29-161 | the whole script (with the corrected date column) computes the specified dataset or error |
| WinterActivities.AllGroupsFailedIff | src/collect_dataset_2.py:111-112 | the merge raises exactly when no group produced an average |
| WinterActivities.GroupColumnsOfTable | src/collect_dataset_2.py:115-119 | a table has one column per group, named with the suffix, holding the average or zeros |
| WinterActivities.WinterAveragesAre | src/collect_dataset_2.py:140-145 | the dict is one entry per group with its winter mean, in order |
| WinterActivities.RankingOf | src/collect_dataset_2.py:148-151 | the winter ranking, sorted by mean, largest first, numbered from 1 |
| WinterActivities.WinterRankingFacts | src/collect_dataset_2.py:148-151 | the ranking lists each activity once with its winter mean, numbered from 1, in non-increasing order |
| ApiTest.Stars | tests/naver-api-test.py:105 | `"*" * n` is max(n, 0) stars |
| ApiTest.Mask | tests/naver-api-test.py:105-106 | `key[:4] + "*" * (len(key) - 8) + key[-4:]` |
| ApiTest.MaskLong | tests/naver-api-test.py:105-106 | a key of 8 or more characters keeps its length and its first and last four characters, with stars between |
| ApiTest.MaskShort | tests/naver-api-test.py:105-106 | a shorter key gets no stars: its head and tail, so a key of at most 4 is shown twice |
| ApiTest.MaskExamples | tests/naver-api-test.py:105-106 | "abcdefgh" is shown whole, "abcdefghij" as "abcd**ghij", "abc" as "abcabc" |
| ApiTest.ConfigCheck | tests/naver-api-test.py:91-112 | fails exactly when either key is missing or empty; otherwise both keys masked |
| ApiTest.DatalabOutcome | tests/naver-api-test.py:114-168 | passes exactly on a readable 200 reply; 401 and 403 have their own outcomes; any other status is an HTTP error with that status; an exception fails |
| ApiTest.SearchOutcome | tests/naver-api-test.py:170-234 | passes exactly on a readable 200 reply; any other status is an HTTP error |
| ApiTest.OnlyPassReturnsTrue | tests/naver-api-test.py:142-201 | a test returns True exactly on a readable 200 reply |
| ApiTest.Count | tests/naver-api-test.py:264 | at most as many passes as tests |
| ApiTest.CountAll | tests/naver-api-test.py:264-275 | the count reaches the total exactly when every test passed |
| ApiTest.CountPassed | tests/naver-api-test.py:264 | the counting loop computes the specified count |
| ApiTest.RunTests | tests/naver-api-test.py:239-280 | the run computes the specified summary |
| ApiTest.SummaryOf | tests/naver-api-test.py:239-280 | the whole run: the key check, then the three requests and the tally |
| ApiTest.SummaryFacts | tests/naver-api-test.py:246-280 | a failed key check stops the run with only that result; otherwise 4 tests, at least 1 passed, and "all passed" exactly when the three requests passed |

## Left out

- **I/O:** printing, `time.sleep`, CSV writing, `mkdir`, reading the keys
  from `config.py` and the `sys.path` setup are not modelled. The model's
  results are the values that would be printed or written.
- **Network:** the network, the clock (`datetime.now`) and the HTTP
  headers are not modelled. Requests are oracle parameters, and the model
  records what was asked of them.
- **Floats:** floating point is modelled as exact reals. `round(x, 2)` on
  the weather aggregates and `round(x, 1)` on their coverage are not
  modelled; records hold the unrounded values.
- **Float parsing:** `float()` on a KMA field is a parameter
  (`FloatParse`). Its exact grammar is not modelled.
- **NaN:**
  - Stats.ColumnMean: the mean of an empty column is 0, where pandas gives
    NaN. This covers a search table with no rows and a winter column with
    no winter rows.
  - Two places where NaN changes control flow are modelled as errors:
    `int(NaN)` raising in collect_dataset_2's bar, and `int(avg_val / 2)`
    raising in collect_segments_detailed's summary (line 155), where
    SegmentsDetailed.CollectedReport is None.
  - SegmentDataset.ReportOf: the analysis is modelled for averages that are
    numbers. In collect_dataset_4 a pair whose reply has no data points
    stores NaN at line 123; the script goes on (its bar at line 191 is
    guarded by `avg_val > 0`), and the NaN then spreads into the sums and
    makes the comparisons false. The model stores 0 for that pair.
  - SegmentRules.BarsAgree: holds for every real average. For NaN the two
    bars differ: collect_dataset_4 draws none, and collect_segments_detailed
    raises, which SegmentsDetailed.CollectedReport models.
- **Dates:** `pd.to_datetime` on trend periods is not modelled; periods
  arrive as dates. Calendar.ParseCompactDate accepts exactly eight digits,
  which is narrower than strptime's `%Y%m%d`.
- **Columns and dicts:** pandas columns are modelled as lists and dicts as
  insertion-ordered entry lists. Index alignment on assignment is not
  modelled: the model's `df[k] = values` needs equal lengths.
- NaverDataLab.AddColumns: assigning a non-empty list to a frame with no
  rows is an error in the model. pandas accepts it instead: it gives the
  frame the list's index, and the earlier columns become NaN and the dates
  NaT. This happens when `results[0]['data']` is empty and a later result
  has data.
- NaverDataLab.AddColumnsFacts: "succeeds exactly when every result has one
  ratio per date" does not hold in pandas for that zero-row frame.
- NaverDataLab.FrameOf: returns LengthMismatch for an empty first result
  followed by a non-empty one; `to_dataframe` returns a table with the later
  result's row count.
- NaverDataLab.ToDataFrame: the same gap as FrameOf.
- NaverDataLab.FrameShape: its "Ok exactly when every result has as many
  points as the first" is false in pandas when the first result is empty.
- WinterActivities.OutcomeOf: inherits that gap. A request for several
  keywords (`src/collect_dataset_2.py:61-67`) whose first keyword has no
  data fails in the model, so the group's column is zeros and it ranks at 0.
  In the source the row mean at line 90 skips the NaN column, so the group
  averages its other keywords.
- NaverSearchTables.ParseInt: `int()` also accepts surrounding whitespace,
  `_` between digits and non-ASCII digits; the model reads only an optional
  sign and ASCII digits, so it raises on " 1000" or "1_000". Modelling the
  whitespace made the table proofs too costly.
- NaverSearchTables.ProductsTable: it inherits ParseInt's narrower reading
  of prices.
- NaverDataLab.FrameOf: the date column and the keyword columns share one
  namespace in pandas. A result titled "date" overwrites the date column
  (line 84), and `pd.to_datetime` then reads its ratios as nanoseconds since
  1970. The model keeps the periods and lists "date" as an ordinary column.
- NaverDataLab.ToDataFrame: the same gap as FrameOf for a result titled
  "date".
- NaverDataLab.FrameShape: "its dates are the first result's periods" holds
  only when no result is titled "date".
- NaverDataLab.FrameColumns: a result titled "date" is read back as a column
  here; in pandas it replaces the dates.
- NaverDataLab.FrameOfDistinctTitles: the same assumption, that no title is
  "date".
- UvDataset.MonthRange requires a start month from 1 to 12. With a larger
  start month and a start year before the end year, the loop at
  `src/collect_dataset_3.py:171-179` never ends: the month never equals 12,
  so the year never advances. A start month of 0 or less is excluded as
  well: the source enumerates it (month 0, then 1, ...), and
  `calendar.monthrange(y, 0)` at line 122 raises for it.
- UvDataset.CollectKmaUvMonthlyAvg: inherits MonthRange's requirement on
  the start month. When the start comes after the end, the model returns no
  records, while the source raises KeyError at line 233
  (`pd.DataFrame([])` has no 'date' column). Years outside pandas'
  timestamp range (1677 to 2262) make `pd.to_datetime` raise
  OutOfBoundsDatetime in the source; the model accepts any year from 1 to
  9999.
- UvSearch.Align: each base date takes the first value of its date in a
  keyword's series. A series that repeats a date would make the left merge
  at `src/collect_dataset_3.py:325` repeat the base row. The trend
  service returns each period once, and the model does not capture the
  repeat.
- UvSearch.SearchTableColumns: the same assumption. With a repeated date
  in a series the source's table has more rows than the base dates.
- UvSearch.MergedRow: carries the whole weather record, while the source
  keeps only the `kma_cols` at `src/collect_dataset_3.py:354-355`. The
  record's year, month and month length are not columns of the merged
  table.
- UvSearch.CollectNaverUvSearch requires the clean keyword names to be
  distinct and to clash with no fixed column. With repeated names pandas'
  merge would add `_x`/`_y` suffixes, which are not modelled. The script's
  own keywords satisfy the requirement (UvSearch.UvKeywordsAdmissible).
- SegmentsDetailed.CollectAllSegments and SegmentDataset.CollectDataset:
  - Distinct segment and group names are required by the lemmas that read
    the dicts back (GroupRowInOrder, AllStatsAt, RowKeys).
  - The scripts' constants satisfy them (ConstantsDistinct).
  - Repeated names would overwrite dict entries. The loops themselves are
    modelled for any names.
- SegmentsDetailed.CollectAllSegments: `project_root` is read on line 61
  but defined only in the fallback import branch. When the file is
  imported as part of its package, that line raises NameError before any
  request. The model starts after this setup.
- WinterActivities.ActivityName: only the suffix at the end of a column
  name is removed. `str.replace` would also remove an occurrence inside the
  name; no group name contains one.
- NaverDataLab.GetSearchTrend: the `headers` and the client credentials
  are not modelled.
- NaverSearch.SearchProducts and NaverSearch.SearchBlogs: the query
  parameters are passed to the oracle, and any display and sort are
  accepted. A 200 reply is modelled as a page of items. A reply without
  `items` or with a body that is not JSON cannot be expressed; in the
  source the KeyError or decoding error is caught at
  `src/naver_api.py:142` and ends the paging, as a failed request does.
- ApiTest.DatalabOutcome and ApiTest.SearchOutcome: the reply is modelled
  only as what the test reads: whether it is JSON, the length of its list,
  and whether the printed detail is present. The messages are not
  modelled.
- The KeyboardInterrupt handlers and the `__main__` blocks are not
  modelled.
- The other scripts of the repository (`collect_data.py`,
  `collect_dataset_1.py`) and the package `__init__.py` are not part of
  this model.

## Findings

| source | as written | input that shows it | evidently intended | confidence | as-written member | corrected member |
|---|---|---|---|---|---|---|
| src/naver_api.py:155-157 | `df['hprice'].astype(int)` raises on a non-numeric price such as an empty string | one item `{"title": "a", "lprice": "1000", "hprice": ""}` | an item without a usable high price still converts, as the guard on line 156 already allows for a missing `hprice` column; the corrected variant reads such a price as 0 | not executed | NaverSearchTables.EmptyHpriceRaises | NaverSearchTables.ProductsToTableCoerced (CoercionNeverFailsOnPrice, CoercionAgrees) |
| src/collect_dataset_2.py:104-109 | the date column is taken from `df_temp`, the last table converted, not from the first successful group as the comment says | 골프 succeeds with one month; 낚시 converts two months but lacks a 바다낚시 result, so its average raises after `df_temp` was set; the 골프 column no longer fits and the script raises | the dates of the first group that produced an average | not executed | WinterActivities.WinterDatasetAsWritten (StaleBaseDates) | WinterActivities.WinterDatasetOf (CorrectedAssembles) |
