// collect_dataset_2: monthly search trends of five winter outdoor activity
// groups. One trend request per group carries all of the group's keywords;
// the group's series is the row mean of its keyword columns; the merged
// table has a date column, one "<group>_그룹" column per group (all 0 where
// the group failed) and year, month and season columns; the groups are then
// ranked by their mean over the winter rows.
module WinterActivities {
  import opened Wrappers
  import opened Stats
  import opened Calendar
  import opened NaverHttp
  import opened NaverDataLab
  import opened Ranking
  import opened Dicts
  import opened SegmentRules

  const START: string := "2020-02-01"
  const END: string := "2025-02-28"

  /** The suffix of every group column. */
  const SUFFIX: string := "_그룹"

  datatype ActivityGroup = ActivityGroup(name: string, keywords: seq<string>)

  const ACTIVITY_GROUPS: seq<ActivityGroup> := [
    ActivityGroup("스키", ["스키", "스키장", "스노우보드"]),
    ActivityGroup("등산", ["등산", "트레킹"]),
    ActivityGroup("러닝", ["러닝", "조깅"]),
    ActivityGroup("골프", ["골프"]),
    ActivityGroup("낚시", ["낚시", "바다낚시"])]

  /** get_search_trend(keywords, start_date, end_date, time_unit="month"). */
  function GroupArgs(g: ActivityGroup): TrendArgs
  {
    DefaultArgs(g.keywords, START, END)
  }

  /** A group's request: one keyword group per keyword in the group's order,
      the fixed period in basic date form, by month, with no filter. */
  lemma GroupRequest(g: ActivityGroup)
    ensures var b := TrendBodyOf(GroupArgs(g));
      |b.keywordGroups| == |g.keywords|
      && (forall i :: 0 <= i < |g.keywords| ==> b.keywordGroups[i] == KeywordGroup(g.keywords[i], [g.keywords[i]]))
      && b.startDate == BasicDate(START) && b.endDate == BasicDate(END) && b.timeUnit == "month"
      && b.device.None? && b.gender.None? && b.ages.None?
  {
    GroupsOfAt(g.keywords);
  }

  function GroupNames(groups: seq<ActivityGroup>): (r: seq<string>)
    ensures |r| == |groups| && forall i :: 0 <= i < |groups| ==> r[i] == groups[i].name
  {
    seq(|groups|, i requires 0 <= i < |groups| => groups[i].name)
  }

  /** Five groups with distinct names, none holding more than the five
      keywords one request may compare. */
  lemma ActivityConstants()
    ensures |ACTIVITY_GROUPS| == 5
    ensures forall i, j :: 0 <= i < j < 5 ==> ACTIVITY_GROUPS[i].name != ACTIVITY_GROUPS[j].name
    ensures forall i :: 0 <= i < 5 ==> 0 < |ACTIVITY_GROUPS[i].keywords| <= 5
    ensures |ACTIVITY_GROUPS[3].keywords| == 1
  {
  }

  // ---------------------------------------------------------------------
  // The group average: df_temp[keywords].mean(axis=1)

  /** df_temp[keywords]: every keyword's column, or None where pandas raises
      KeyError because one of them is missing. */
  function KeywordColumns(cols: seq<Column>, keywords: seq<string>): (r: Option<seq<seq<real>>>)
    ensures r.Some? <==> forall k :: 0 <= k < |keywords| ==> Lookup(cols, keywords[k]).Some?
    ensures r.Some? ==>
      |r.value| == |keywords| && forall k :: 0 <= k < |keywords| ==> r.value[k] == Lookup(cols, keywords[k]).value
  {
    if forall k :: 0 <= k < |keywords| ==> Lookup(cols, keywords[k]).Some? then
      Some(seq(|keywords|, k requires 0 <= k < |keywords| && Lookup(cols, keywords[k]).Some? => Lookup(cols, keywords[k]).value))
    else None
  }

  lemma KeywordColumnsLength(cols: seq<Column>, keywords: seq<string>, n: nat)
    requires AllOfLength(cols, n) && KeywordColumns(cols, keywords).Some?
    ensures forall k :: 0 <= k < |keywords| ==> |KeywordColumns(cols, keywords).value[k]| == n
  {
    forall k | 0 <= k < |keywords|
      ensures |KeywordColumns(cols, keywords).value[k]| == n
    {
      LookupLength(cols, keywords[k], n);
    }
  }

  /** The group average, present when the table holds every keyword's column. */
  function GroupSeries(f: TrendFrame, keywords: seq<string>): (r: Option<seq<real>>)
    requires AllOfLength(f.columns, |f.dates|)
    ensures r.Some? <==> KeywordColumns(f.columns, keywords).Some?
    ensures r.Some? ==> |r.value| == |f.dates|
  {
    match KeywordColumns(f.columns, keywords)
    case None => None
    case Some(cs) =>
      KeywordColumnsLength(f.columns, keywords, |f.dates|);
      Some(RowMeans(cs, |f.dates|))
  }

  /** Each value of the group average lies between any bounds on that row's
      keyword values. */
  lemma SeriesBetween(f: TrendFrame, keywords: seq<string>, i: nat, lo: real, hi: real)
    requires AllOfLength(f.columns, |f.dates|) && GroupSeries(f, keywords).Some?
    requires |keywords| > 0 && i < |f.dates|
    requires forall k :: 0 <= k < |keywords| ==>
      i < |Lookup(f.columns, keywords[k]).value| && lo <= Lookup(f.columns, keywords[k]).value[i] <= hi
    ensures lo <= GroupSeries(f, keywords).value[i] <= hi
  {
    var cs := KeywordColumns(f.columns, keywords).value;
    KeywordColumnsLength(f.columns, keywords, |f.dates|);
    var row := Across(cs, i);
    MeanWithin(row, lo, hi);
  }

  /** A one-keyword group (골프) averages to its keyword's column itself. */
  lemma SingleKeywordSeries(f: TrendFrame, keyword: string)
    requires AllOfLength(f.columns, |f.dates|) && Lookup(f.columns, keyword).Some?
    ensures GroupSeries(f, [keyword]) == Lookup(f.columns, keyword)
  {
    LookupLength(f.columns, keyword, |f.dates|);
    var column := Lookup(f.columns, keyword).value;
    var r := GroupSeries(f, [keyword]).value;
    forall i | 0 <= i < |f.dates|
      ensures r[i] == column[i]
    {
      var cs := KeywordColumns(f.columns, [keyword]).value;
      KeywordColumnsLength(f.columns, [keyword], |f.dates|);
      assert Across(cs, i) == [column[i]];
      assert Sum([column[i]]) == Sum([]) + column[i];
    }
    assert r == column;
  }

  // ---------------------------------------------------------------------
  // Collection: the all_data loop

  /** What one group's try block leaves: the converted table (df_temp is
      assigned as soon as to_dataframe returns, before the keyword columns
      are read) and the group average. */
  datatype GroupOutcome = GroupOutcome(frame: Option<TrendFrame>, series: Option<seq<real>>)

  function OutcomeOf(r: Result<seq<TrendResult>, ApiError>, keywords: seq<string>): (o: GroupOutcome)
    ensures o.series.Some? ==> o.frame.Some? && |o.series.value| == |o.frame.value.dates|
  {
    if r.Err? then GroupOutcome(None, None)
    else
      match FrameOf(r.value)
      case Err(_) => GroupOutcome(None, None)
      case Ok(f) =>
        FrameShape(r.value);
        GroupOutcome(Some(f), GroupSeries(f, keywords))
  }

  /** The table is kept exactly when the call and the conversion succeed;
      the average exists exactly when, in addition, some result carries
      each keyword as its title. */
  lemma OutcomeFacts(r: Result<seq<TrendResult>, ApiError>, keywords: seq<string>)
    ensures var o := OutcomeOf(r, keywords);
      (o.frame.Some? <==> r.Ok? && FrameOf(r.value).Ok?)
      && (o.frame.Some? ==> o.frame.value == FrameOf(r.value).value)
      && (o.series.Some? <==> o.frame.Some? && forall k :: 0 <= k < |keywords| ==> LastWithTitle(r.value, keywords[k]).Some?)
  {
    if r.Ok? && FrameOf(r.value).Ok? {
      FrameShape(r.value);
      FrameColumns(r.value);
    }
  }

  function Outcomes(post: TrendPost, groups: seq<ActivityGroup>): (r: seq<GroupOutcome>)
    ensures |r| == |groups|
  {
    seq(|groups|, i requires 0 <= i < |groups| => OutcomeOf(SearchTrend(post, GroupArgs(groups[i])), groups[i].keywords))
  }

  /** Every average has a table of its own length. */
  predicate Consistent(os: seq<GroupOutcome>)
  {
    forall i :: 0 <= i < |os| && os[i].series.Some? ==>
      os[i].frame.Some? && |os[i].series.value| == |os[i].frame.value.dates|
  }

  lemma OutcomesConsistent(post: TrendPost, groups: seq<ActivityGroup>)
    ensures Consistent(Outcomes(post, groups))
  {
    var os := Outcomes(post, groups);
    forall i | 0 <= i < |os| && os[i].series.Some?
      ensures os[i].frame.Some? && |os[i].series.value| == |os[i].frame.value.dates|
    {
      assert os[i] == OutcomeOf(SearchTrend(post, GroupArgs(groups[i])), groups[i].keywords);
    }
  }

  /** all_data: the average of each group, None where its try block failed. */
  function SeriesList(os: seq<GroupOutcome>): (r: seq<Option<seq<real>>>)
    ensures |r| == |os| && forall i :: 0 <= i < |os| ==> r[i] == os[i].series
  {
    seq(|os|, i requires 0 <= i < |os| => os[i].series)
  }

  /** df_temp after the loop: the last table converted, whichever group it
      came from. */
  function LastFrame(os: seq<GroupOutcome>): Option<TrendFrame>
  {
    if os == [] then None
    else if os[|os| - 1].frame.Some? then os[|os| - 1].frame
    else LastFrame(os[..|os| - 1])
  }

  /** The dates of the first group that produced an average: the date column
      the merge step's comment says it takes. */
  function FirstSeriesDates(os: seq<GroupOutcome>): Option<seq<Date>>
  {
    if os == [] then None
    else
      var n := |os| - 1;
      var earlier := FirstSeriesDates(os[..n]);
      if earlier.Some? then earlier
      else if os[n].series.Some? && os[n].frame.Some? then Some(os[n].frame.value.dates)
      else None
  }

  lemma OutcomesStep(os: seq<GroupOutcome>, i: nat)
    requires i < |os|
    ensures SeriesList(os[..i + 1]) == SeriesList(os[..i]) + [os[i].series]
    ensures LastFrame(os[..i + 1]) == if os[i].frame.Some? then os[i].frame else LastFrame(os[..i])
    ensures FirstSeriesDates(os[..i + 1]) ==
      if FirstSeriesDates(os[..i]).Some? then FirstSeriesDates(os[..i])
      else if os[i].series.Some? && os[i].frame.Some? then Some(os[i].frame.value.dates)
      else None
  {
    assert os[..i + 1][..i] == os[..i];
  }

  /** The loop over the groups, in order. Besides all_data and df_temp it
      keeps the first successful group's dates. */
  method CollectGroups(post: TrendPost, groups: seq<ActivityGroup>)
    returns (allData: seq<Option<seq<real>>>, dfTemp: Option<TrendFrame>, firstDates: Option<seq<Date>>)
    ensures allData == SeriesList(Outcomes(post, groups))
    ensures dfTemp == LastFrame(Outcomes(post, groups))
    ensures firstDates == FirstSeriesDates(Outcomes(post, groups))
  {
    ghost var os := Outcomes(post, groups);
    allData := [];
    dfTemp := None;
    firstDates := None;
    for i := 0 to |groups|
      invariant allData == SeriesList(os[..i])
      invariant dfTemp == LastFrame(os[..i])
      invariant firstDates == FirstSeriesDates(os[..i])
    {
      var g := groups[i];
      var result := GetSearchTrend(post, GroupArgs(g));
      var series: Option<seq<real>> := None;
      var converted: Option<TrendFrame> := None;
      if result.Ok? {
        var frame := ToDataFrame(result.value);
        if frame.Ok? {
          FrameShape(result.value);
          converted := Some(frame.value);
          series := GroupSeries(frame.value, g.keywords);
        }
      }
      assert os[i] == GroupOutcome(converted, series);
      OutcomesStep(os, i);
      if converted.Some? {
        dfTemp := converted;
      }
      if series.Some? && firstDates.None? {
        firstDates := Some(converted.value.dates);
      }
      allData := allData + [series];
    }
    assert os[..|groups|] == os;
  }

  // ---------------------------------------------------------------------
  // The merged table

  datatype WinterError = AllGroupsFailed | ColumnLengthMismatch(column: string) | NoWinterRows

  datatype WinterTable = WinterTable(
    dates: seq<Date>,
    groups: seq<Column>,
    years: seq<int>,
    months: seq<int>,
    seasons: seq<string>)

  /** Every column has one value per date. */
  predicate TableShape(t: WinterTable)
  {
    |t.years| == |t.dates| && |t.months| == |t.dates| && |t.seasons| == |t.dates|
    && AllOfLength(t.groups, |t.dates|)
  }

  /** base_df[name + '_그룹'] = data.values, or = 0 for a failed group;
      values of another length raise ValueError. */
  function GroupColumn(name: string, data: Option<seq<real>>, rows: nat): (r: Result<Column, WinterError>)
    ensures r.Err? <==> data.Some? && |data.value| != rows
  {
    match data
    case None => Ok(Column(name + SUFFIX, ZeroColumn(rows)))
    case Some(v) => if |v| == rows then Ok(Column(name + SUFFIX, v)) else Err(ColumnLengthMismatch(name + SUFFIX))
  }

  /** The column loop over the first m groups; it stops at the first error. */
  function GroupColumns(names: seq<string>, allData: seq<Option<seq<real>>>, rows: nat, m: nat): (r: Result<seq<Column>, WinterError>)
    requires |allData| == |names| && m <= |names|
    ensures r.Ok? ==> |r.value| == m && AllOfLength(r.value, rows)
    ensures r.Err? ==> r.error.ColumnLengthMismatch?
  {
    if m == 0 then Ok([])
    else
      match GroupColumns(names, allData, rows, m - 1)
      case Err(e) => Err(e)
      case Ok(cs) =>
        match GroupColumn(names[m - 1], allData[m - 1], rows)
        case Err(e) => Err(e)
        case Ok(c) => Ok(cs + [c])
  }

  /** The columns exist exactly when every average has one value per row;
      column i is then the group's average, or zeros where it failed. */
  lemma {:induction false} GroupColumnsFacts(names: seq<string>, allData: seq<Option<seq<real>>>, rows: nat, m: nat)
    requires |allData| == |names| && m <= |names|
    ensures GroupColumns(names, allData, rows, m).Ok? <==>
      forall i :: 0 <= i < m && allData[i].Some? ==> |allData[i].value| == rows
    ensures GroupColumns(names, allData, rows, m).Ok? ==>
      forall i :: 0 <= i < m ==>
        GroupColumns(names, allData, rows, m).value[i] == Column(names[i] + SUFFIX, if allData[i].Some? then allData[i].value else ZeroColumn(rows))
  {
    if m > 0 {
      GroupColumnsFacts(names, allData, rows, m - 1);
    }
  }

  /** Once a column fails, the later groups do not change the error. */
  lemma {:induction false} GroupColumnsErrStays(names: seq<string>, allData: seq<Option<seq<real>>>, rows: nat, k: nat, m: nat)
    requires |allData| == |names| && k <= m <= |names|
    requires GroupColumns(names, allData, rows, k).Err?
    ensures GroupColumns(names, allData, rows, m) == GroupColumns(names, allData, rows, k)
  {
    if m > k {
      GroupColumnsErrStays(names, allData, rows, k, m - 1);
    }
  }

  /** The year, month and season columns derived from the dates. */
  function TableOf(dates: seq<Date>, groups: seq<Column>): WinterTable
  {
    WinterTable(dates, groups,
      seq(|dates|, i requires 0 <= i < |dates| => dates[i].year),
      seq(|dates|, i requires 0 <= i < |dates| => dates[i].month),
      seq(|dates|, i requires 0 <= i < |dates| => SeasonLabel(SeasonOf(dates[i].month))))
  }

  /** Each row's season is 겨울 for months 12, 1, 2, 여름 for 6, 7, 8 and
      기타 for the rest. */
  lemma SeasonColumn(dates: seq<Date>, groups: seq<Column>, i: nat)
    requires i < |dates|
    ensures var t := TableOf(dates, groups);
      (t.seasons[i] == "겨울" <==> t.months[i] in {12, 1, 2})
      && (t.seasons[i] == "여름" <==> t.months[i] in {6, 7, 8})
      && (t.seasons[i] == "기타" <==> t.months[i] !in {12, 1, 2, 6, 7, 8})
      && t.months[i] == dates[i].month && t.years[i] == dates[i].year
  {
    var s := SeasonOf(dates[i].month);
    assert SeasonLabel(Winter) == "겨울" && SeasonLabel(Summer) == "여름" && SeasonLabel(Other) == "기타";
    assert "겨울" != "여름" && "겨울" != "기타" && "여름" != "기타";
  }

  /** The merge: no table when no group has an average, otherwise the given
      date column and one column per group. */
  function Assemble(names: seq<string>, allData: seq<Option<seq<real>>>, base: Option<seq<Date>>): (r: Result<WinterTable, WinterError>)
    requires |allData| == |names|
    ensures r.Ok? ==> TableShape(r.value) && |r.value.groups| == |names|
  {
    if base.None? then Err(AllGroupsFailed)
    else
      match GroupColumns(names, allData, |base.value|, |names|)
      case Err(e) => Err(e)
      case Ok(cs) => Ok(TableOf(base.value, cs))
  }

  method BuildTable(names: seq<string>, allData: seq<Option<seq<real>>>, base: Option<seq<Date>>)
    returns (r: Result<WinterTable, WinterError>)
    requires |allData| == |names|
    ensures r == Assemble(names, allData, base)
  {
    if base.None? {
      return Err(AllGroupsFailed);
    }
    var dates := base.value;
    var cols: seq<Column> := [];
    for i := 0 to |names|
      invariant GroupColumns(names, allData, |dates|, i) == Ok(cols)
    {
      var name := names[i] + SUFFIX;
      var values: seq<real>;
      if allData[i].Some? {
        if |allData[i].value| != |dates| {
          GroupColumnsErrStays(names, allData, |dates|, i + 1, |names|);
          return Err(ColumnLengthMismatch(name));
        }
        values := allData[i].value;
      } else {
        values := ZeroColumn(|dates|);
      }
      cols := cols + [Column(name, values)];
    }
    r := Ok(TableOf(dates, cols));
  }

  // ---------------------------------------------------------------------
  // Where the date column comes from

  predicate AnySucceeded(allData: seq<Option<seq<real>>>)
  {
    exists i :: 0 <= i < |allData| && allData[i].Some?
  }

  /** As written: once some group has an average, the date column is taken
      from df_temp, the last table converted. */
  function BaseAsWritten(allData: seq<Option<seq<real>>>, dfTemp: Option<TrendFrame>): (r: Option<seq<Date>>)
    ensures r.Some? <==> AnySucceeded(allData) && dfTemp.Some?
    ensures r.Some? ==> r.value == dfTemp.value.dates
  {
    if AnySucceeded(allData) && dfTemp.Some? then Some(dfTemp.value.dates) else None
  }

  /** The first successful group's dates exist exactly when some group
      succeeded, and they are that group's table's dates. */
  lemma {:induction false} FirstSeriesDatesFacts(os: seq<GroupOutcome>)
    requires Consistent(os)
    ensures FirstSeriesDates(os).Some? <==> AnySucceeded(SeriesList(os))
    ensures FirstSeriesDates(os).Some? ==>
      exists i :: 0 <= i < |os| && os[i].series.Some? && (forall j :: 0 <= j < i ==> os[j].series.None?)
        && FirstSeriesDates(os).value == os[i].frame.value.dates
  {
    if os != [] {
      var n := |os| - 1;
      assert Consistent(os[..n]);
      FirstSeriesDatesFacts(os[..n]);
      var list := SeriesList(os);
      if FirstSeriesDates(os[..n]).Some? {
        var i :| 0 <= i < n && os[..n][i].series.Some?
          && (forall j :: 0 <= j < i ==> os[..n][j].series.None?)
          && FirstSeriesDates(os[..n]).value == os[..n][i].frame.value.dates;
        assert list[i].Some?;
        assert forall j :: 0 <= j < i ==> os[j].series.None? by {
          forall j | 0 <= j < i ensures os[j].series.None? { assert os[..n][j] == os[j]; }
        }
      } else {
        assert forall j :: 0 <= j < n ==> os[j].series.None? by {
          forall j | 0 <= j < n ensures os[j].series.None? {
            assert os[..n][j] == os[j];
            assert SeriesList(os[..n])[j] == os[j].series;
          }
        }
        if os[n].series.Some? {
          assert list[n].Some?;
        } else {
          forall i | 0 <= i < |list| ensures list[i].None? { }
        }
      }
    }
  }

  /** The corrected merge never fails on the group the dates come from: it
      fails only when two successful groups have tables of different
      lengths. */
  lemma CorrectedAssembles(names: seq<string>, os: seq<GroupOutcome>)
    requires |os| == |names| && Consistent(os) && AnySucceeded(SeriesList(os))
    requires forall i, j :: 0 <= i < |os| && 0 <= j < |os| && os[i].series.Some? && os[j].series.Some? ==>
      |os[i].frame.value.dates| == |os[j].frame.value.dates|
    ensures Assemble(names, SeriesList(os), FirstSeriesDates(os)).Ok?
  {
    FirstSeriesDatesFacts(os);
    var i :| 0 <= i < |os| && os[i].series.Some?
      && (forall j :: 0 <= j < i ==> os[j].series.None?)
      && FirstSeriesDates(os).value == os[i].frame.value.dates;
    var rows := |os[i].frame.value.dates|;
    GroupColumnsFacts(names, SeriesList(os), rows, |names|);
  }

  /** When every converted table has the same dates, both date columns are
      the same. */
  lemma {:induction false} BasesAgree(os: seq<GroupOutcome>, dates: seq<Date>)
    requires Consistent(os)
    requires forall i :: 0 <= i < |os| && os[i].frame.Some? ==> os[i].frame.value.dates == dates
    ensures BaseAsWritten(SeriesList(os), LastFrame(os)) == FirstSeriesDates(os)
  {
    FirstSeriesDatesFacts(os);
    if AnySucceeded(SeriesList(os)) {
      var i :| 0 <= i < |os| && os[i].series.Some?
        && (forall j :: 0 <= j < i ==> os[j].series.None?)
        && FirstSeriesDates(os).value == os[i].frame.value.dates;
      LastFrameFrom(os, i);
    }
  }

  /** A table converted at i means df_temp ends as some group's table. */
  lemma {:induction false} LastFrameFrom(os: seq<GroupOutcome>, i: nat)
    requires i < |os| && os[i].frame.Some?
    ensures LastFrame(os).Some?
    ensures exists j :: 0 <= j < |os| && LastFrame(os) == os[j].frame
  {
    var n := |os| - 1;
    if os[n].frame.None? {
      assert i < n;
      assert os[..n][i] == os[i];
      LastFrameFrom(os[..n], i);
      var j :| 0 <= j < n && LastFrame(os[..n]) == os[..n][j].frame;
      assert os[..n][j] == os[j];
    }
  }

  // The as-written merge can fail where the intended one succeeds: a first
  // group whose table has one month, then a group whose table converts with
  // two months but lacks one of its keywords' columns.

  const SHORT_FRAME: TrendFrame := TrendFrame([Date(2024, 12, 1)], [Column("골프", [10.0])])
  const LONG_FRAME: TrendFrame := TrendFrame([Date(2024, 12, 1), Date(2025, 1, 1)], [Column("낚시", [4.0, 6.0])])

  /** The two outcomes arise from these replies: the second lacks a result
      titled 바다낚시, so its average raises KeyError after df_temp is set. */
  lemma StaleFrameOutcomes()
    ensures OutcomeOf(Ok([TrendResult("골프", [DataPoint(Date(2024, 12, 1), 10.0)])]), ["골프"])
      == GroupOutcome(Some(SHORT_FRAME), Some([10.0]))
    ensures OutcomeOf(Ok([TrendResult("낚시", [DataPoint(Date(2024, 12, 1), 4.0), DataPoint(Date(2025, 1, 1), 6.0)])]), ["낚시", "바다낚시"])
      == GroupOutcome(Some(LONG_FRAME), None)
  {
    var r1 := [TrendResult("골프", [DataPoint(Date(2024, 12, 1), 10.0)])];
    assert Ratios(r1[0].data) == [10.0];
    assert Periods(r1[0].data) == [Date(2024, 12, 1)];
    assert AddColumns([], r1, 1) == Ok([Column("골프", [10.0])]);
    var f1 := FrameOf(r1).value;
    assert f1 == SHORT_FRAME;
    var cs := KeywordColumns(f1.columns, ["골프"]).value;
    assert cs == [[10.0]];
    assert Across(cs, 0) == [10.0];
    assert Sum([10.0]) == Sum([]) + 10.0;
    assert RowMeans(cs, 1) == [10.0];
    var r2 := [TrendResult("낚시", [DataPoint(Date(2024, 12, 1), 4.0), DataPoint(Date(2025, 1, 1), 6.0)])];
    assert Ratios(r2[0].data) == [4.0, 6.0];
    assert Periods(r2[0].data) == [Date(2024, 12, 1), Date(2025, 1, 1)];
    assert AddColumns([], r2, 2) == Ok([Column("낚시", [4.0, 6.0])]);
    assert FrameOf(r2) == Ok(LONG_FRAME);
    var keywords := ["낚시", "바다낚시"];
    assert Lookup(LONG_FRAME.columns, keywords[1]).None?;
    assert KeywordColumns(LONG_FRAME.columns, keywords).None?;
  }

  /** With those two groups the code takes the dates from the second
      group's table and the first group's one-month column no longer fits;
      the first successful group's dates give a table. */
  lemma StaleBaseDates()
    ensures var os := [GroupOutcome(Some(SHORT_FRAME), Some([10.0])), GroupOutcome(Some(LONG_FRAME), None)];
      var names := ["골프", "낚시"];
      Assemble(names, SeriesList(os), BaseAsWritten(SeriesList(os), LastFrame(os))) == Err(ColumnLengthMismatch("골프_그룹"))
      && Assemble(names, SeriesList(os), FirstSeriesDates(os)).Ok?
      && Assemble(names, SeriesList(os), FirstSeriesDates(os)).value.dates == [Date(2024, 12, 1)]
  {
    var os := [GroupOutcome(Some(SHORT_FRAME), Some([10.0])), GroupOutcome(Some(LONG_FRAME), None)];
    var names := ["골프", "낚시"];
    var list := SeriesList(os);
    assert list == [Some([10.0]), None];
    assert list[0].Some?;
    assert os[..1] == [os[0]];
    assert [os[0]][..0] == [];
    assert LastFrame(os) == Some(LONG_FRAME);
    assert FirstSeriesDates(os[..1]) == Some([Date(2024, 12, 1)]);
    assert FirstSeriesDates(os) == Some([Date(2024, 12, 1)]);
    assert "골프" + SUFFIX == "골프_그룹";
    assert GroupColumns(names, list, 2, 1) == Err(ColumnLengthMismatch("골프_그룹"));
    GroupColumnsErrStays(names, list, 2, 1, 2);
    GroupColumnsFacts(names, list, 1, 2);
  }

  // ---------------------------------------------------------------------
  // The winter ranking

  /** The values of a column on the winter rows (season == '겨울'). */
  function WinterValues(seasons: seq<string>, values: seq<real>): (r: seq<real>)
    requires |values| == |seasons|
    ensures |r| <= |values|
  {
    if values == [] then []
    else
      var n := |values| - 1;
      WinterValues(seasons[..n], values[..n]) + (if seasons[n] == "겨울" then [values[n]] else [])
  }

  predicate HasWinterRow(seasons: seq<string>)
  {
    exists i :: 0 <= i < |seasons| && seasons[i] == "겨울"
  }

  /** The winter values are drawn from winter rows, and there is one exactly
      when some row is a winter row. */
  lemma {:induction false} WinterValuesFacts(seasons: seq<string>, values: seq<real>)
    requires |values| == |seasons|
    ensures WinterValues(seasons, values) != [] <==> HasWinterRow(seasons)
    ensures forall x :: x in WinterValues(seasons, values) ==>
      exists i :: 0 <= i < |seasons| && seasons[i] == "겨울" && values[i] == x
  {
    if values != [] {
      var n := |values| - 1;
      WinterValuesFacts(seasons[..n], values[..n]);
      if HasWinterRow(seasons[..n]) {
        var i :| 0 <= i < n && seasons[..n][i] == "겨울";
        assert seasons[i] == "겨울";
      }
      if HasWinterRow(seasons) && seasons[n] != "겨울" {
        var i :| 0 <= i < |seasons| && seasons[i] == "겨울";
        assert seasons[..n][i] == "겨울";
      }
      forall x | x in WinterValues(seasons, values)
        ensures exists i :: 0 <= i < |seasons| && seasons[i] == "겨울" && values[i] == x
      {
        if x in WinterValues(seasons[..n], values[..n]) {
          var i :| 0 <= i < n && seasons[..n][i] == "겨울" && values[..n][i] == x;
          assert seasons[i] == "겨울" && values[i] == x;
        } else {
          assert seasons[n] == "겨울" && values[n] == x;
        }
      }
    }
  }

  /** winter_df[col].mean(); without winter rows pandas gives NaN, 0 here. */
  function WinterMean(seasons: seq<string>, values: seq<real>): (r: real)
    requires |values| == |seasons|
  {
    ColumnMean(WinterValues(seasons, values))
  }

  /** A winter mean lies between any bounds on the winter values. */
  lemma WinterMeanBetween(seasons: seq<string>, values: seq<real>, lo: real, hi: real)
    requires |values| == |seasons| && HasWinterRow(seasons)
    requires forall i :: 0 <= i < |seasons| && seasons[i] == "겨울" ==> lo <= values[i] <= hi
    ensures lo <= WinterMean(seasons, values) <= hi
  {
    WinterValuesFacts(seasons, values);
    var w := WinterValues(seasons, values);
    forall k | 0 <= k < |w| ensures lo <= w[k] <= hi {
      assert w[k] in w;
    }
    MeanWithin(w, lo, hi);
  }

  predicate EndsWith(s: string, suffix: string)
  {
    |suffix| <= |s| && s[|s| - |suffix|..] == suffix
  }

  /** col.replace('_그룹', ''), for a name that ends with the suffix once. */
  function ActivityName(col: string): (r: string)
    requires EndsWith(col, SUFFIX)
    ensures r + SUFFIX == col
  {
    col[..|col| - |SUFFIX|]
  }

  /** A group's column name carries the suffix and gives the group back. */
  lemma SuffixedName(name: string)
    ensures EndsWith(name + SUFFIX, SUFFIX) && ActivityName(name + SUFFIX) == name
  {
    var col := name + SUFFIX;
    assert col[|col| - |SUFFIX|..] == SUFFIX;
    assert col[..|col| - |SUFFIX|] == name;
  }

  /** The date, year, month and season columns are skipped by the loop. */
  lemma FixedColumnsSkipped()
    ensures !EndsWith("date", SUFFIX) && !EndsWith("year", SUFFIX)
    ensures !EndsWith("month", SUFFIX) && !EndsWith("season", SUFFIX)
  {
    assert "date"[1..] != SUFFIX && "year"[1..] != SUFFIX;
    assert "month"[2..] != SUFFIX && "season"[3..] != SUFFIX;
  }

  /** winter_avg after the loop over the first m group columns. */
  function WinterAverages(t: WinterTable, m: nat): seq<Entry>
    requires TableShape(t) && m <= |t.groups|
  {
    if m == 0 then []
    else
      var earlier := WinterAverages(t, m - 1);
      var c := t.groups[m - 1];
      if EndsWith(c.name, SUFFIX) then
        LookupLength(t.groups, c.name, |t.dates|);
        assert |c.values| == |t.dates|;
        Assign(earlier, ActivityName(c.name), WinterMean(t.seasons, c.values))
      else earlier
  }

  method WinterAveragesLoop(t: WinterTable) returns (avg: seq<Entry>)
    requires TableShape(t)
    ensures avg == WinterAverages(t, |t.groups|)
  {
    avg := [];
    for i := 0 to |t.groups|
      invariant avg == WinterAverages(t, i)
    {
      var c := t.groups[i];
      if EndsWith(c.name, SUFFIX) {
        avg := Assign(avg, ActivityName(c.name), WinterMean(t.seasons, c.values));
      }
    }
  }

  /** With distinct group names every group column gives one entry, named
      after its group, in column order. */
  lemma {:induction false} WinterAveragesInOrder(t: WinterTable, names: seq<string>, m: nat)
    requires TableShape(t) && m <= |t.groups| == |names|
    requires forall i :: 0 <= i < |names| ==> t.groups[i].name == names[i] + SUFFIX
    requires forall i, j :: 0 <= i < j < |names| ==> names[i] != names[j]
    ensures |WinterAverages(t, m)| == m
    ensures forall i :: 0 <= i < m ==>
      WinterAverages(t, m)[i] == Entry(names[i], WinterMean(t.seasons, t.groups[i].values))
  {
    if m > 0 {
      var n := m - 1;
      WinterAveragesInOrder(t, names, n);
      var earlier := WinterAverages(t, n);
      var e := Entry(names[n], WinterMean(t.seasons, t.groups[n].values));
      forall i | 0 <= i < |earlier|
        ensures earlier[i].name != names[n]
      {
        assert earlier[i].name == names[i];
      }
      WinterAveragesStep(t, names[n], n);
      assert WinterAverages(t, m) == earlier + [e];
      forall i | 0 <= i < m
        ensures WinterAverages(t, m)[i] == Entry(names[i], WinterMean(t.seasons, t.groups[i].values))
      {
        if i < n {
          assert WinterAverages(t, m)[i] == earlier[i];
        }
      }
    }
  }

  /** A group column whose activity is not yet in the dict adds one entry at
      the end. */
  lemma WinterAveragesStep(t: WinterTable, name: string, n: nat)
    requires TableShape(t) && n < |t.groups| && t.groups[n].name == name + SUFFIX
    requires forall i :: 0 <= i < |WinterAverages(t, n)| ==> WinterAverages(t, n)[i].name != name
    ensures WinterAverages(t, n + 1)
      == WinterAverages(t, n) + [Entry(name, WinterMean(t.seasons, t.groups[n].values))]
  {
    SuffixedName(name);
    AssignFresh(WinterAverages(t, n), name, WinterMean(t.seasons, t.groups[n].values));
  }

  /** The printed bar: "█" repeated int(value / 5) times. */
  function WinterBar(v: real): (r: string)
    ensures v >= 0.0 ==> 5.0 * (|r| as real) <= v < 5.0 * (|r| as real) + 5.0
    ensures v < 5.0 ==> r == ""
  {
    Bar(Trunc(v / 5.0))
  }

  // ---------------------------------------------------------------------
  // The whole script

  datatype WinterDataset = WinterDataset(table: WinterTable, ranking: seq<RankedEntry>)

  /** The ranking: sorted by winter mean, largest first, numbered from 1.
      Without a winter row every mean is NaN and int() raises while the
      first bar is printed. */
  function RankingOf(t: WinterTable): Result<seq<RankedEntry>, WinterError>
    requires TableShape(t)
  {
    var avg := WinterAverages(t, |t.groups|);
    if avg != [] && !HasWinterRow(t.seasons) then Err(NoWinterRows) else Ok(Ranked(avg))
  }

  /** The script with the date column taken from the first successful group. */
  function WinterDatasetOf(post: TrendPost, groups: seq<ActivityGroup>): Result<WinterDataset, WinterError>
  {
    var os := Outcomes(post, groups);
    match Assemble(GroupNames(groups), SeriesList(os), FirstSeriesDates(os))
    case Err(e) => Err(e)
    case Ok(t) =>
      match RankingOf(t)
      case Err(e) => Err(e)
      case Ok(ranking) => Ok(WinterDataset(t, ranking))
  }

  /** The script as written: the date column is df_temp's. */
  function WinterDatasetAsWritten(post: TrendPost, groups: seq<ActivityGroup>): Result<WinterDataset, WinterError>
  {
    var os := Outcomes(post, groups);
    match Assemble(GroupNames(groups), SeriesList(os), BaseAsWritten(SeriesList(os), LastFrame(os)))
    case Err(e) => Err(e)
    case Ok(t) =>
      match RankingOf(t)
      case Err(e) => Err(e)
      case Ok(ranking) => Ok(WinterDataset(t, ranking))
  }

  method CollectWinterDataset(post: TrendPost, groups: seq<ActivityGroup>) returns (r: Result<WinterDataset, WinterError>)
    ensures r == WinterDatasetOf(post, groups)
  {
    var allData, dfTemp, firstDates := CollectGroups(post, groups);
    var table := BuildTable(GroupNames(groups), allData, firstDates);
    if table.Err? {
      return Err(table.error);
    }
    var t := table.value;
    var avg := WinterAveragesLoop(t);
    if avg != [] && !HasWinterRow(t.seasons) {
      return Err(NoWinterRows);
    }
    r := Ok(WinterDataset(t, Ranked(avg)));
  }

  /** The merge fails with AllGroupsFailed exactly when no group produced
      an average. */
  lemma AllGroupsFailedIff(names: seq<string>, os: seq<GroupOutcome>)
    requires |os| == |names| && Consistent(os)
    ensures Assemble(names, SeriesList(os), FirstSeriesDates(os)) == Err(AllGroupsFailed)
      <==> forall i :: 0 <= i < |os| ==> os[i].series.None?
  {
    FirstSeriesDatesFacts(os);
    var list := SeriesList(os);
    if FirstSeriesDates(os).Some? {
      var i :| 0 <= i < |os| && list[i].Some?;
      assert os[i].series.Some?;
    }
  }

  /** A table has a column per group, named with the suffix, holding the
      group's average or zeros. */
  lemma GroupColumnsOfTable(names: seq<string>, allData: seq<Option<seq<real>>>, base: Option<seq<Date>>)
    requires |allData| == |names| && Assemble(names, allData, base).Ok?
    ensures var t := Assemble(names, allData, base).value;
      forall i :: 0 <= i < |names| ==>
        t.groups[i] == Column(names[i] + SUFFIX, if allData[i].Some? then allData[i].value else ZeroColumn(|t.dates|))
  {
    GroupColumnsFacts(names, allData, |base.value|, |names|);
  }

  lemma WinterAveragesAre(t: WinterTable, names: seq<string>)
    requires TableShape(t) && |t.groups| == |names|
    requires forall i :: 0 <= i < |names| ==> t.groups[i].name == names[i] + SUFFIX
    requires forall i, j :: 0 <= i < j < |names| ==> names[i] != names[j]
    ensures WinterAverages(t, |t.groups|)
      == seq(|names|, i requires 0 <= i < |names| => Entry(names[i], WinterMean(t.seasons, t.groups[i].values)))
  {
    WinterAveragesInOrder(t, names, |names|);
  }

  /** The ranking lists each activity once with its winter mean, numbered
      from 1, in non-increasing order. */
  lemma WinterRankingFacts(t: WinterTable, names: seq<string>)
    requires TableShape(t) && |t.groups| == |names|
    requires forall i :: 0 <= i < |names| ==> t.groups[i].name == names[i] + SUFFIX
    requires forall i, j :: 0 <= i < j < |names| ==> names[i] != names[j]
    requires RankingOf(t).Ok?
    ensures var r := RankingOf(t).value;
      |r| == |names|
      && (forall i :: 0 <= i < |r| ==> r[i].rank == i + 1)
      && (forall i, j :: 0 <= i < j < |r| ==> r[i].entry.value >= r[j].entry.value)
      && multiset(seq(|r|, i requires 0 <= i < |r| => r[i].entry))
        == multiset(seq(|names|, i requires 0 <= i < |names| => Entry(names[i], WinterMean(t.seasons, t.groups[i].values))))
  {
    var avg := WinterAverages(t, |t.groups|);
    WinterAveragesAre(t, names);
    assert RankingOf(t).value == Ranked(avg);
    RankingIsOrderedPermutation(avg);
  }
}
