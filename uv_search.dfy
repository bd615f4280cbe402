// The search half of the UV dataset script: one monthly trend request per
// UV keyword, the merge of the keyword series onto one date column (0 where
// a keyword has no value or failed), the combined search index, and the
// join with the weather table that adds year, month and season.
module UvSearch {
  import opened Wrappers
  import opened Text
  import opened Stats
  import opened Calendar
  import opened NaverHttp
  import opened NaverDataLab
  import opened UvDataset

  const UV_KEYWORDS: seq<string> := ["자외선", "자외선 차단", "UV 차단"]
  const UV_START: string := "2020-02-01"
  const UV_END: string := "2025-02-28"

  /** The name of the combined column: the row mean of the keyword columns. */
  const SEARCH_INDEX: string := "자외선검색지수"

  /** A keyword's `[keyword, 'date']` slice: ratios aligned with periods. */
  datatype Series = Series(dates: seq<Date>, values: seq<real>)

  /** keyword.replace(' ', '') */
  function CleanName(keyword: string): string
  {
    RemoveAll(keyword, ' ')
  }

  predicate DistinctCleanNames(keywords: seq<string>)
  {
    forall i, j :: 0 <= i < j < |keywords| ==> CleanName(keywords[i]) != CleanName(keywords[j])
  }

  /** No clean name is one of the table's fixed column names. */
  predicate CleanNamesFree(keywords: seq<string>)
  {
    forall i :: 0 <= i < |keywords| ==> CleanName(keywords[i]) != SEARCH_INDEX && CleanName(keywords[i]) != "date"
  }

  /** Two space-free words joined by one space lose only that space. */
  lemma CleanJoined(a: string, b: string)
    requires ' ' !in a && ' ' !in b
    ensures CleanName(a + " " + b) == a + b
  {
    assert a + " " + b == a + (" " + b);
    RemoveAllConcat(a, " " + b, ' ');
    RemoveAllConcat(" ", b, ' ');
    RemoveAllAbsent(a, ' ');
    RemoveAllAbsent(b, ' ');
    assert RemoveAll(" ", ' ') == "";
  }

  /** The three UV keywords become 자외선, 자외선차단 and UV차단. */
  lemma UvKeywordNames()
    ensures CleanName(UV_KEYWORDS[0]) == "자외선"
    ensures CleanName(UV_KEYWORDS[1]) == "자외선차단"
    ensures CleanName(UV_KEYWORDS[2]) == "UV차단"
  {
    RemoveAllAbsent("자외선", ' ');
    assert UV_KEYWORDS[1] == "자외선" + " " + "차단";
    CleanJoined("자외선", "차단");
    assert UV_KEYWORDS[2] == "UV" + " " + "차단";
    CleanJoined("UV", "차단");
  }

  /** The three clean names are distinct and clash with no fixed column. */
  lemma UvKeywordsAdmissible()
    ensures DistinctCleanNames(UV_KEYWORDS) && CleanNamesFree(UV_KEYWORDS)
  {
    UvKeywordNames();
    assert CleanName(UV_KEYWORDS[0]) == "자외선";
  }

  /** What the try block keeps: the keyword's column and the dates, when
      the call and the conversion succeed, the column exists and the table
      has rows. */
  function SeriesOf(r: Result<seq<TrendResult>, ApiError>, keyword: string): (s: Option<Series>)
    ensures s.Some? ==> |s.value.dates| > 0 && |s.value.values| == |s.value.dates|
  {
    if r.Err? then None
    else
      FrameShape(r.value);
      match FrameOf(r.value)
      case Err(_) => None
      case Ok(f) =>
        LookupLength(f.columns, keyword, |f.dates|);
        match Lookup(f.columns, keyword)
        case None => None
        case Some(v) => if |f.dates| > 0 then Some(Series(f.dates, v)) else None
  }

  /** One monthly request naming only the keyword. */
  function KeywordSeries(post: TrendPost, keyword: string, start: string, end: string): Option<Series>
  {
    SeriesOf(SearchTrend(post, DefaultArgs([keyword], start, end)), keyword)
  }

  function AllSeries(post: TrendPost, keywords: seq<string>, start: string, end: string): (r: seq<Option<Series>>)
    ensures |r| == |keywords|
  {
    seq(|keywords|, i requires 0 <= i < |keywords| => KeywordSeries(post, keywords[i], start, end))
  }

  /** The loop filling all_data, one request per keyword in order. */
  method FetchAll(post: TrendPost, keywords: seq<string>, start: string, end: string)
    returns (all: seq<Option<Series>>)
    ensures all == AllSeries(post, keywords, start, end)
  {
    all := [];
    var i := 0;
    while i < |keywords|
      invariant 0 <= i <= |keywords|
      invariant |all| == i
      invariant forall k :: 0 <= k < i ==> all[k] == KeywordSeries(post, keywords[k], start, end)
    {
      var keyword := keywords[i];
      var result := GetSearchTrend(post, DefaultArgs([keyword], start, end));
      var data: Option<Series> := None;
      if result.Ok? {
        var frame := ToDataFrame(result.value);
        if frame.Ok? {
          var column := Lookup(frame.value.columns, keyword);
          if column.Some? && |frame.value.dates| > 0 {
            data := Some(Series(frame.value.dates, column.value));
          }
        }
      }
      all := all + [data];
      i := i + 1;
    }
  }

  // ---------------------------------------------------------------------
  // The base date column

  function LengthOf(base: Option<seq<Date>>): nat
  {
    if base.Some? then |base.value| else 0
  }

  /** The dates of the first series longer than every earlier one. */
  function BaseDates(all: seq<Option<Series>>): (r: Option<seq<Date>>)
  {
    if all == [] then None
    else
      var prev := BaseDates(all[..|all| - 1]);
      var last := all[|all| - 1];
      if last.Some? && |last.value.dates| > LengthOf(prev) then Some(last.value.dates) else prev
  }

  /** There is a base exactly when some keyword has a non-empty series; it
      is the dates of the first longest series. */
  lemma {:induction false} BaseDatesFacts(all: seq<Option<Series>>)
    ensures BaseDates(all).None? <==> forall i :: 0 <= i < |all| ==> all[i].None? || all[i].value.dates == []
    ensures BaseDates(all).Some? ==> exists i :: 0 <= i < |all| && all[i].Some? && all[i].value.dates == BaseDates(all).value
                                            && (forall j :: 0 <= j < i && all[j].Some? ==> |all[j].value.dates| < |all[i].value.dates|)
    ensures forall i :: 0 <= i < |all| && all[i].Some? ==> |all[i].value.dates| <= LengthOf(BaseDates(all))
  {
    if all != [] {
      var prefix := all[..|all| - 1];
      BaseDatesFacts(prefix);
      assert forall i :: 0 <= i < |prefix| ==> prefix[i] == all[i];
      var last := all[|all| - 1];
      if last.Some? && |last.value.dates| > LengthOf(BaseDates(prefix)) {
        assert forall j :: 0 <= j < |prefix| && all[j].Some? ==> |all[j].value.dates| < |last.value.dates|;
      } else if BaseDates(prefix).Some? {
        var i :| 0 <= i < |prefix| && prefix[i].Some? && prefix[i].value.dates == BaseDates(prefix).value
                 && (forall j :: 0 <= j < i && prefix[j].Some? ==> |prefix[j].value.dates| < |prefix[i].value.dates|);
        assert all[i] == prefix[i];
      }
    }
  }

  // ---------------------------------------------------------------------
  // The columns

  /** The first position of a date. */
  function IndexOf(dates: seq<Date>, d: Date): (r: Option<nat>)
    ensures r.Some? ==> r.value < |dates| && dates[r.value] == d && d !in dates[..r.value]
    ensures r.None? <==> d !in dates
  {
    if dates == [] then None
    else if dates[0] == d then Some(0)
    else
      var rest := IndexOf(dates[1..], d);
      if rest.Some? then
        assert dates[..rest.value + 1] == [dates[0]] + dates[1..][..rest.value];
        Some(rest.value + 1)
      else None
  }

  /** merge(how='left') on date, then fillna(0): the keyword's value on each
      base date, 0 on a date the keyword lacks. */
  function Align(base: seq<Date>, s: Series): (r: seq<real>)
    requires |s.values| == |s.dates|
    ensures |r| == |base|
  {
    seq(|base|, i requires 0 <= i < |base| =>
      match IndexOf(s.dates, base[i])
      case Some(j) => s.values[j]
      case None => 0.0)
  }

  /** The column a keyword contributes: its aligned values, or all 0 when
      its request failed. */
  function KeywordColumn(keyword: string, data: Option<Series>, base: seq<Date>): (c: Column)
    requires data.Some? ==> |data.value.values| == |data.value.dates|
    ensures c.name == CleanName(keyword) && |c.values| == |base|
  {
    Column(CleanName(keyword), if data.Some? && |data.value.dates| > 0 then Align(base, data.value) else ZeroColumn(|base|))
  }

  predicate WellFormed(all: seq<Option<Series>>)
  {
    forall i :: 0 <= i < |all| && all[i].Some? ==> |all[i].value.values| == |all[i].value.dates|
  }

  /** The columns' values, column by column. */
  function ColumnValues(cols: seq<Column>): (r: seq<seq<real>>)
    ensures |r| == |cols| && forall k :: 0 <= k < |cols| ==> r[k] == cols[k].values
  {
    seq(|cols|, k requires 0 <= k < |cols| => cols[k].values)
  }

  /** The values of every column at one row. */
  function RowOf(cols: seq<Column>, row: nat): (r: seq<real>)
    requires forall k :: 0 <= k < |cols| ==> row < |cols[k].values|
    ensures |r| == |cols|
  {
    Across(ColumnValues(cols), row)
  }

  /** One column per keyword, in keyword order. */
  function KeywordColumns(keywords: seq<string>, all: seq<Option<Series>>, base: seq<Date>): (cols: seq<Column>)
    requires |all| == |keywords| && WellFormed(all)
    ensures |cols| == |keywords| && AllOfLength(cols, |base|)
  {
    seq(|keywords|, k requires 0 <= k < |keywords| => KeywordColumn(keywords[k], all[k], base))
  }

  /** Every series the requests return has as many values as dates. */
  lemma AllSeriesWellFormed(post: TrendPost, keywords: seq<string>, start: string, end: string)
    ensures WellFormed(AllSeries(post, keywords, start, end))
  {
  }

  datatype SearchError = AllKeywordsFailed

  /** The table built from the series; raises when no keyword returned data. */
  function SearchTable(keywords: seq<string>, all: seq<Option<Series>>): (r: Result<TrendFrame, SearchError>)
    requires |all| == |keywords| && WellFormed(all)
  {
    BaseDatesFacts(all);
    match BaseDates(all)
    case None => Err(AllKeywordsFailed)
    case Some(base) =>
      var cols := KeywordColumns(keywords, all, base);
      Ok(TrendFrame(base, cols + [Column(SEARCH_INDEX, RowMeans(ColumnValues(cols), |base|))]))
  }

  /** collect_naver_uv_search for the given keywords and period. */
  function NaverUvSearch(post: TrendPost, keywords: seq<string>, start: string, end: string): Result<TrendFrame, SearchError>
  {
    AllSeriesWellFormed(post, keywords, start, end);
    SearchTable(keywords, AllSeries(post, keywords, start, end))
  }

  /** The loop choosing base_df: the first strictly longer series wins. */
  method ChooseBase(all: seq<Option<Series>>) returns (base: Option<seq<Date>>)
    ensures base == BaseDates(all)
  {
    base := None;
    var maxLength := 0;
    var i := 0;
    while i < |all|
      invariant 0 <= i <= |all|
      invariant base == BaseDates(all[..i]) && maxLength == LengthOf(base)
    {
      assert all[..i + 1][..i] == all[..i];
      if all[i].Some? && |all[i].value.dates| > maxLength {
        base := Some(all[i].value.dates);
        maxLength := |all[i].value.dates|;
      }
      i := i + 1;
    }
    assert all[..|all|] == all;
  }

  /** The loop adding one column per keyword. */
  method AddKeywordColumns(keywords: seq<string>, all: seq<Option<Series>>, dates: seq<Date>) returns (cols: seq<Column>)
    requires |all| == |keywords| && WellFormed(all)
    ensures cols == KeywordColumns(keywords, all, dates)
  {
    cols := [];
    var i := 0;
    while i < |all|
      invariant 0 <= i <= |all|
      invariant |cols| == i
      invariant forall k :: 0 <= k < i ==> cols[k] == KeywordColumn(keywords[k], all[k], dates)
    {
      var data := all[i];
      if data.Some? && |data.value.dates| > 0 {
        cols := cols + [Column(CleanName(keywords[i]), Align(dates, data.value))];
      } else {
        cols := cols + [Column(CleanName(keywords[i]), ZeroColumn(|dates|))];
      }
      i := i + 1;
    }
  }

  method CollectNaverUvSearch(post: TrendPost, keywords: seq<string>, start: string, end: string)
    returns (r: Result<TrendFrame, SearchError>)
    requires DistinctCleanNames(keywords) && CleanNamesFree(keywords)
    ensures r == NaverUvSearch(post, keywords, start, end)
  {
    var all := FetchAll(post, keywords, start, end);
    AllSeriesWellFormed(post, keywords, start, end);
    BaseDatesFacts(all);
    var base := ChooseBase(all);
    if base.None? {
      return Err(AllKeywordsFailed);
    }
    var dates := base.value;
    var cols := AddKeywordColumns(keywords, all, dates);
    r := Ok(TrendFrame(dates, cols + [Column(SEARCH_INDEX, RowMeans(ColumnValues(cols), |dates|))]));
  }

  /** The table exists exactly when some keyword returned data. */
  lemma SearchTableExists(keywords: seq<string>, all: seq<Option<Series>>)
    requires |all| == |keywords| && WellFormed(all)
    ensures SearchTable(keywords, all).Ok? <==> exists i :: 0 <= i < |all| && all[i].Some? && all[i].value.dates != []
  {
    BaseDatesFacts(all);
  }

  /** The table has the base dates, one column per keyword named by its
      clean name and then the index column, all as long as the date column.
      A failed keyword's column is all 0; a successful one holds the
      keyword's ratio on each base date it has and 0 on the others. */
  lemma SearchTableColumns(keywords: seq<string>, all: seq<Option<Series>>, k: nat)
    requires |all| == |keywords| && WellFormed(all) && k < |keywords|
    requires SearchTable(keywords, all).Ok?
    ensures var f := SearchTable(keywords, all).value;
      && f.dates == BaseDates(all).value
      && |f.columns| == |keywords| + 1
      && f.columns[|keywords|].name == SEARCH_INDEX
      && AllOfLength(f.columns, |f.dates|)
      && f.columns[k].name == CleanName(keywords[k])
      && (all[k].None? ==> forall row :: 0 <= row < |f.dates| ==> f.columns[k].values[row] == 0.0)
      && (all[k].Some? ==> forall row :: 0 <= row < |f.dates| ==>
            f.columns[k].values[row] ==
              (if f.dates[row] in all[k].value.dates then all[k].value.values[IndexOf(all[k].value.dates, f.dates[row]).value] else 0.0))
  {
    BaseDatesFacts(all);
    var f := SearchTable(keywords, all).value;
    var cols := KeywordColumns(keywords, all, f.dates);
    assert f.columns == cols + [Column(SEARCH_INDEX, RowMeans(ColumnValues(cols), |f.dates|))];
    assert f.columns[k] == KeywordColumn(keywords[k], all[k], f.dates);
    if all[k].Some? && all[k].value.dates == [] {
      forall row | 0 <= row < |f.dates| ensures f.dates[row] !in all[k].value.dates { }
    }
  }

  /** The keyword series are the answers to one request per keyword, in
      keyword order, each naming only that keyword. */
  lemma OneRequestPerKeyword(post: TrendPost, keywords: seq<string>, start: string, end: string, k: nat)
    requires k < |keywords|
    ensures AllSeries(post, keywords, start, end)[k] == SeriesOf(SearchTrend(post, DefaultArgs([keywords[k]], start, end)), keywords[k])
    ensures TrendBodyOf(DefaultArgs([keywords[k]], start, end)).keywordGroups == [KeywordGroup(keywords[k], [keywords[k]])]
  {
    assert GroupsOf([keywords[k]]) == GroupsOf([]) + [KeywordGroup(keywords[k], [keywords[k]])];
  }

  /** Every row of the index column is the mean of that row's keyword
      values, so it lies between their smallest and largest; ratios within
      [0, 100] give an index within [0, 100]. */
  lemma SearchIndexRow(keywords: seq<string>, all: seq<Option<Series>>, row: nat)
    requires |all| == |keywords| && WellFormed(all)
    requires SearchTable(keywords, all).Ok?
    requires row < |SearchTable(keywords, all).value.dates|
    ensures var f := SearchTable(keywords, all).value;
      var cols := f.columns[..|keywords|];
      && |keywords| > 0
      && f.columns[|keywords|].values[row] == Mean(RowOf(cols, row))
      && MinOf(RowOf(cols, row)) <= f.columns[|keywords|].values[row] <= MaxOf(RowOf(cols, row))
  {
    BaseDatesFacts(all);
    var f := SearchTable(keywords, all).value;
    var cols := KeywordColumns(keywords, all, f.dates);
    assert f.columns[..|keywords|] == cols;
    MeanBetween(RowOf(cols, row));
  }

  // ---------------------------------------------------------------------
  // merge_and_analyze

  /** A row of the final table: the search row, the weather record of the
      same date if there is one, and the calendar columns. */
  datatype MergedRow = MergedRow(date: Date, search: seq<real>, uv: Option<UvRecord>,
                                 year: int, month: int, season: string)

  /** The weather record of a date (the first one, as records have distinct dates). */
  function RecordFor(records: seq<UvRecord>, d: Date): (r: Option<UvRecord>)
    ensures r.Some? ==> r.value in records && r.value.date == d
    ensures r.None? <==> forall i :: 0 <= i < |records| ==> records[i].date != d
  {
    if records == [] then None
    else if records[0].date == d then Some(records[0])
    else RecordFor(records[1..], d)
  }

  /** The left join on date followed by the year, month and season columns. */
  function MergeAndAnalyze(naver: TrendFrame, records: seq<UvRecord>): (r: seq<MergedRow>)
    requires AllOfLength(naver.columns, |naver.dates|)
    ensures |r| == |naver.dates|
  {
    seq(|naver.dates|, i requires 0 <= i < |naver.dates| =>
      var d := naver.dates[i];
      MergedRow(d, RowOf(naver.columns, i), RecordFor(records, d), d.year, d.month, SeasonLabel(SeasonOf(d.month))))
  }

  /** Every search row is kept once and in order, with the weather record
      of its date when one exists, and its season is 겨울 for months 12, 1,
      2, 여름 for 6, 7, 8 and 기타 otherwise. */
  lemma MergedRows(naver: TrendFrame, records: seq<UvRecord>, i: nat)
    requires AllOfLength(naver.columns, |naver.dates|) && i < |naver.dates|
    ensures var row := MergeAndAnalyze(naver, records)[i];
      && row.date == naver.dates[i] && row.month == naver.dates[i].month && row.year == naver.dates[i].year
      && (forall k :: 0 <= k < |naver.columns| ==> row.search[k] == naver.columns[k].values[i])
      && (row.uv.Some? <==> exists j :: 0 <= j < |records| && records[j].date == row.date)
      && (row.uv.Some? ==> row.uv.value.date == row.date)
      && (row.month in {12, 1, 2} ==> row.season == "겨울")
      && (row.month in {6, 7, 8} ==> row.season == "여름")
      && (row.month !in {12, 1, 2, 6, 7, 8} ==> row.season == "기타")
  {
  }

  /** The weather table has one record per month, so the join never
      duplicates a search row. */
  lemma RecordDatesDistinct(fetch: UvFetch, parseFloat: FloatParse,
                            startYear: int, startMonth: int, endYear: int, endMonth: int, i: nat, j: nat)
    requires 1 <= startMonth <= 12
    requires YearsValid(MonthsBetween(startYear, startMonth, endYear, endMonth))
    requires i < j < |MonthsBetween(startYear, startMonth, endYear, endMonth)|
    ensures var records := Records(fetch, parseFloat, MonthsBetween(startYear, startMonth, endYear, endMonth));
      records[i].date != records[j].date
  {
    var ms := MonthsBetween(startYear, startMonth, endYear, endMonth);
    RecordsDate(fetch, parseFloat, ms, i);
    RecordsDate(fetch, parseFloat, ms, j);
    var first := MonthIndex(YearMonth(startYear, startMonth));
    MonthsBetweenIndex(startYear, startMonth, endYear, endMonth, i);
    MonthsBetweenIndex(startYear, startMonth, endYear, endMonth, j);
  }

  /** The i-th record is dated the first of the i-th month. */
  lemma RecordsDate(fetch: UvFetch, parseFloat: FloatParse, months: seq<YearMonth>, i: nat)
    requires YearsValid(months) && i < |months|
    ensures Records(fetch, parseFloat, months)[i].date == Date(months[i].year, months[i].month, 1)
  {
    RecordOfDate(months[i], MonthlyOf(fetch, parseFloat, months[i].year, months[i].month));
  }

  lemma RecordOfDate(ym: YearMonth, data: Option<MonthlyUv>)
    requires ValidYear(ym.year) && 1 <= ym.month <= 12
    requires data.Some? ==> data.value.totalDays > 0
    ensures RecordOf(ym, data).date == Date(ym.year, ym.month, 1)
  {
  }
}
