// The search-trend client (class NaverDataLab): building the request body,
// checking the reply, and turning the `results` array into a table with a
// `date` column and one ratio column per result title.
module NaverDataLab {
  import opened Wrappers
  import opened Text
  import opened Calendar
  import opened NaverHttp

  datatype KeywordGroup = KeywordGroup(groupName: string, keywords: seq<string>)

  /** The JSON body; an absent optional key is None. */
  datatype TrendBody = TrendBody(
    startDate: string,
    endDate: string,
    timeUnit: string,
    keywordGroups: seq<KeywordGroup>,
    device: Option<string>,
    gender: Option<string>,
    ages: Option<seq<string>>)

  /** The arguments of get_search_trend (defaults: "month", "", "", []). */
  datatype TrendArgs = TrendArgs(
    keywords: seq<string>,
    startDate: string,
    endDate: string,
    timeUnit: string,
    device: string,
    gender: string,
    ages: seq<string>)

  function DefaultArgs(keywords: seq<string>, startDate: string, endDate: string): TrendArgs
  {
    TrendArgs(keywords, startDate, endDate, "month", "", "", [])
  }

  datatype DataPoint = DataPoint(period: Date, ratio: real)

  datatype TrendResult = TrendResult(title: string, data: seq<DataPoint>)

  /** The trend endpoint: what posting a body returns. */
  type TrendPost = TrendBody -> Transport<seq<TrendResult>>

  // ---------------------------------------------------------------------
  // Request body

  /** One group per keyword, named after it and holding only it. */
  function GroupsOf(keywords: seq<string>): seq<KeywordGroup>
  {
    if keywords == [] then []
    else GroupsOf(keywords[..|keywords| - 1]) + [KeywordGroup(keywords[|keywords| - 1], [keywords[|keywords| - 1]])]
  }

  /** start_date.replace("-", "") */
  function BasicDate(s: string): string
  {
    RemoveAll(s, '-')
  }

  /** A Python value used as a condition: a non-empty string is true. */
  function IfGiven<T>(given: bool, v: T): Option<T>
  {
    if given then Some(v) else None
  }

  function TrendBodyOf(a: TrendArgs): TrendBody
  {
    TrendBody(BasicDate(a.startDate), BasicDate(a.endDate), a.timeUnit, GroupsOf(a.keywords),
      IfGiven(a.device != "", a.device), IfGiven(a.gender != "", a.gender), IfGiven(a.ages != [], a.ages))
  }

  lemma {:induction false} GroupsOfAt(keywords: seq<string>)
    ensures |GroupsOf(keywords)| == |keywords|
    ensures forall i :: 0 <= i < |keywords| ==>
      GroupsOf(keywords)[i] == KeywordGroup(keywords[i], [keywords[i]])
  {
    if keywords != [] {
      GroupsOfAt(keywords[..|keywords| - 1]);
    }
  }

  /** The body built from the arguments: one group per keyword in order,
      dates with every hyphen removed, time unit passed through, and each
      optional key present exactly when its argument is non-empty.
      The number of keywords is not checked. */
  lemma TrendBodyShape(a: TrendArgs)
    ensures var b := TrendBodyOf(a);
      && |b.keywordGroups| == |a.keywords|
      && (forall i :: 0 <= i < |a.keywords| ==>
            b.keywordGroups[i].groupName == a.keywords[i] && b.keywordGroups[i].keywords == [a.keywords[i]])
      && '-' !in b.startDate && '-' !in b.endDate
      && (forall c :: c != '-' ==> multiset(b.startDate)[c] == multiset(a.startDate)[c])
      && (forall c :: c != '-' ==> multiset(b.endDate)[c] == multiset(a.endDate)[c])
      && b.timeUnit == a.timeUnit
      && (b.device.Some? <==> a.device != "") && (b.device.Some? ==> b.device.value == a.device)
      && (b.gender.Some? <==> a.gender != "") && (b.gender.Some? ==> b.gender.value == a.gender)
      && (b.ages.Some? <==> a.ages != []) && (b.ages.Some? ==> b.ages.value == a.ages)
  {
    GroupsOfAt(a.keywords);
  }

  /** Group names read back from a body give the keyword list. */
  lemma GroupNamesRoundTrip(a: TrendArgs)
    ensures var g := TrendBodyOf(a).keywordGroups;
      seq(|g|, i requires 0 <= i < |g| => g[i].groupName) == a.keywords
  {
    GroupsOfAt(a.keywords);
  }

  predicate IsExtendedDate(s: string)
  {
    |s| == 10 && s[4] == '-' && s[7] == '-'
    && AllDigits(s[..4]) && AllDigits(s[5..7]) && AllDigits(s[8..])
  }

  predicate IsBasicDate(s: string)
  {
    |s| == 8 && AllDigits(s)
  }

  /** An ISO 8601 extended calendar date YYYY-MM-DD becomes the basic form
      YYYYMMDD (ISO 8601:2004 section 4.1.2.2), digits unchanged. */
  lemma ExtendedToBasic(s: string)
    requires IsExtendedDate(s)
    ensures BasicDate(s) == s[..4] + s[5..7] + s[8..]
    ensures IsBasicDate(BasicDate(s))
  {
    var y, m, d := s[..4], s[5..7], s[8..];
    assert '-' !in y && '-' !in m && '-' !in d by {
      assert forall i :: 0 <= i < |y| ==> y[i] == s[..4][i];
      assert forall i :: 0 <= i < |m| ==> m[i] == s[5..7][i];
      assert forall i :: 0 <= i < |d| ==> d[i] == s[8..][i];
    }
    assert s == (y + "-") + (m + "-") + d;
    RemoveAllConcat(y + "-", m + "-", '-');
    RemoveAllConcat((y + "-") + (m + "-"), d, '-');
    RemoveAllConcat(y, "-", '-');
    RemoveAllConcat(m, "-", '-');
    RemoveAllAbsent(y, '-');
    RemoveAllAbsent(m, '-');
    RemoveAllAbsent(d, '-');
    assert RemoveAll("-", '-') == [];
    var r := y + m + d;
    assert BasicDate(s) == r;
    assert |r| == 8;
    assert forall i :: 0 <= i < 8 ==> IsDigit(r[i]) by {
      forall i | 0 <= i < 8
        ensures IsDigit(r[i])
      {
        if i < 4 { assert r[i] == y[i]; }
        else if i < 6 { assert r[i] == m[i - 4]; }
        else { assert r[i] == d[i - 6]; }
      }
    }
  }

  lemma StripsExampleDate()
    ensures BasicDate("2024-01-01") == "20240101"
  {
    ExtendedToBasic("2024-01-01");
  }

  /** Builds the body as get_search_trend does: groups appended in a loop,
      then the optional keys added when given. */
  method BuildTrendBody(a: TrendArgs) returns (body: TrendBody)
    ensures body == TrendBodyOf(a)
  {
    var groups: seq<KeywordGroup> := [];
    var i := 0;
    while i < |a.keywords|
      invariant 0 <= i <= |a.keywords|
      invariant groups == GroupsOf(a.keywords[..i])
    {
      assert a.keywords[..i + 1][..i] == a.keywords[..i];
      groups := groups + [KeywordGroup(a.keywords[i], [a.keywords[i]])];
      i := i + 1;
    }
    assert a.keywords[..i] == a.keywords;
    body := TrendBody(BasicDate(a.startDate), BasicDate(a.endDate), a.timeUnit, groups, None, None, None);
    if a.device != "" {
      body := body.(device := Some(a.device));
    }
    if a.gender != "" {
      body := body.(gender := Some(a.gender));
    }
    if a.ages != [] {
      body := body.(ages := Some(a.ages));
    }
  }

  // ---------------------------------------------------------------------
  // The call

  /** get_search_trend: post the body; status 200 gives the results, any
      other status raises with the status code and the response text. */
  function SearchTrend(post: TrendPost, a: TrendArgs): Result<seq<TrendResult>, ApiError>
  {
    CheckStatus(post(TrendBodyOf(a)), true)
  }

  method GetSearchTrend(post: TrendPost, a: TrendArgs) returns (r: Result<seq<TrendResult>, ApiError>)
    ensures r == SearchTrend(post, a)
    ensures r.Ok? <==> post(TrendBodyOf(a)).Delivered? && post(TrendBodyOf(a)).reply.status == 200
    ensures r.Ok? ==> r.value == post(TrendBodyOf(a)).reply.body
    ensures r.Err? && post(TrendBodyOf(a)).Delivered? ==>
      r.error == StatusError(post(TrendBodyOf(a)).reply.status, Some(post(TrendBodyOf(a)).reply.text))
  {
    var body := BuildTrendBody(a);
    r := CheckStatus(post(body), true);
  }

  // ---------------------------------------------------------------------
  // to_dataframe

  datatype Column = Column(name: string, values: seq<real>)

  datatype TrendFrame = TrendFrame(dates: seq<Date>, columns: seq<Column>)

  /** results[0] on an empty list raises IndexError; a column whose length
      differs from the date column raises ValueError. */
  datatype FrameError = NoResults | LengthMismatch(title: string)

  function Periods(d: seq<DataPoint>): (r: seq<Date>)
    ensures |r| == |d| && forall i :: 0 <= i < |d| ==> r[i] == d[i].period
  {
    seq(|d|, i requires 0 <= i < |d| => d[i].period)
  }

  function Ratios(d: seq<DataPoint>): (r: seq<real>)
    ensures |r| == |d| && forall i :: 0 <= i < |d| ==> r[i] == d[i].ratio
  {
    seq(|d|, i requires 0 <= i < |d| => d[i].ratio)
  }

  /** `df[name] = values`: replaces the column of that name, else appends one. */
  function SetColumn(cols: seq<Column>, c: Column): seq<Column>
  {
    if cols == [] then [c]
    else if cols[0].name == c.name then [c] + cols[1..]
    else [cols[0]] + SetColumn(cols[1..], c)
  }

  /** The values of the first column with that name. */
  function Lookup(cols: seq<Column>, name: string): Option<seq<real>>
  {
    if cols == [] then None
    else if cols[0].name == name then Some(cols[0].values)
    else Lookup(cols[1..], name)
  }

  predicate DistinctNames(cols: seq<Column>)
  {
    forall i, j :: 0 <= i < j < |cols| ==> cols[i].name != cols[j].name
  }

  predicate AllOfLength(cols: seq<Column>, n: nat)
  {
    forall i :: 0 <= i < |cols| ==> |cols[i].values| == n
  }

  lemma {:induction false} LookupLength(cols: seq<Column>, name: string, n: nat)
    requires AllOfLength(cols, n)
    ensures Lookup(cols, name).Some? ==> |Lookup(cols, name).value| == n
  {
    if cols != [] && cols[0].name != name {
      LookupLength(cols[1..], name, n);
    }
  }

  /** The loop over results, from results[0] on. */
  function AddColumns(cols: seq<Column>, results: seq<TrendResult>, rows: nat): Result<seq<Column>, FrameError>
    decreases |results|
  {
    if results == [] then Ok(cols)
    else if |results[0].data| != rows then Err(LengthMismatch(results[0].title))
    else AddColumns(SetColumn(cols, Column(results[0].title, Ratios(results[0].data))), results[1..], rows)
  }

  function FrameOf(results: seq<TrendResult>): Result<TrendFrame, FrameError>
  {
    if results == [] then Err(NoResults)
    else
      match AddColumns([], results, |results[0].data|)
      case Ok(cols) => Ok(TrendFrame(Periods(results[0].data), cols))
      case Err(e) => Err(e)
  }

  method ToDataFrame(results: seq<TrendResult>) returns (r: Result<TrendFrame, FrameError>)
    ensures r == FrameOf(results)
  {
    if |results| == 0 {
      return Err(NoResults);
    }
    var dates := Periods(results[0].data);
    var rows := |results[0].data|;
    var cols: seq<Column> := [];
    var i := 0;
    while i < |results|
      invariant 0 <= i <= |results|
      invariant AddColumns(cols, results[i..], rows) == AddColumns([], results, rows)
    {
      assert results[i..][1..] == results[i + 1..];
      var ratios := Ratios(results[i].data);
      if |ratios| != rows {
        return Err(LengthMismatch(results[i].title));
      }
      cols := SetColumn(cols, Column(results[i].title, ratios));
      i := i + 1;
    }
    r := Ok(TrendFrame(dates, cols));
  }

  // Facts about SetColumn and AddColumns

  function Names(cols: seq<Column>): set<string>
  {
    set k | 0 <= k < |cols| :: cols[k].name
  }

  lemma {:induction false} SetColumnLookup(cols: seq<Column>, c: Column)
    ensures Lookup(SetColumn(cols, c), c.name) == Some(c.values)
    ensures forall n :: n != c.name ==> Lookup(SetColumn(cols, c), n) == Lookup(cols, n)
  {
    if cols != [] && cols[0].name != c.name {
      SetColumnLookup(cols[1..], c);
    }
  }

  lemma {:induction false} NamesCons(x: Column, cols: seq<Column>)
    ensures Names([x] + cols) == {x.name} + Names(cols)
  {
    var r := [x] + cols;
    forall n | n in Names(r) ensures n in {x.name} + Names(cols) {
      var k :| 0 <= k < |r| && r[k].name == n;
      if k > 0 { assert cols[k - 1].name == n; }
    }
    forall n | n in Names(cols) ensures n in Names(r) {
      var k :| 0 <= k < |cols| && cols[k].name == n;
      assert r[k + 1].name == n;
    }
    assert r[0].name == x.name;
  }

  lemma {:induction false} SetColumnNames(cols: seq<Column>, c: Column)
    ensures Names(SetColumn(cols, c)) == Names(cols) + {c.name}
  {
    if cols == [] {
      assert Names([c]) == {c.name} by { NamesCons(c, []); }
    } else if cols[0].name == c.name {
      NamesCons(c, cols[1..]);
      NamesCons(cols[0], cols[1..]);
      assert cols == [cols[0]] + cols[1..];
    } else {
      SetColumnNames(cols[1..], c);
      NamesCons(cols[0], SetColumn(cols[1..], c));
      NamesCons(cols[0], cols[1..]);
      assert cols == [cols[0]] + cols[1..];
    }
  }

  lemma {:induction false} DistinctCons(x: Column, cols: seq<Column>)
    requires DistinctNames(cols) && x.name !in Names(cols)
    ensures DistinctNames([x] + cols)
  {
    var r := [x] + cols;
    forall i, j | 0 <= i < j < |r| ensures r[i].name != r[j].name {
      if i == 0 {
        assert r[j] == cols[j - 1];
      } else {
        assert r[i] == cols[i - 1] && r[j] == cols[j - 1];
      }
    }
  }

  lemma {:induction false} SetColumnDistinct(cols: seq<Column>, c: Column)
    requires DistinctNames(cols)
    ensures DistinctNames(SetColumn(cols, c))
  {
    if cols != [] {
      assert cols == [cols[0]] + cols[1..];
      assert DistinctNames(cols[1..]);
      assert cols[0].name !in Names(cols[1..]);
      if cols[0].name == c.name {
        DistinctCons(c, cols[1..]);
      } else {
        SetColumnDistinct(cols[1..], c);
        SetColumnNames(cols[1..], c);
        DistinctCons(cols[0], SetColumn(cols[1..], c));
      }
    }
  }

  lemma {:induction false} SetColumnLengths(cols: seq<Column>, c: Column, n: nat)
    requires AllOfLength(cols, n) && |c.values| == n
    ensures AllOfLength(SetColumn(cols, c), n)
  {
    if cols != [] && cols[0].name != c.name {
      SetColumnLengths(cols[1..], c, n);
    }
  }

  lemma {:induction false} SetColumnAppends(cols: seq<Column>, c: Column)
    requires c.name !in Names(cols)
    ensures SetColumn(cols, c) == cols + [c]
  {
    if cols != [] {
      assert cols[0].name != c.name;
      assert c.name !in Names(cols[1..]);
      SetColumnAppends(cols[1..], c);
      assert cols == [cols[0]] + cols[1..];
    }
  }

  /** The ratios of the last result with that title, if any. */
  function LastWithTitle(results: seq<TrendResult>, title: string): Option<seq<real>>
  {
    if results == [] then None
    else
      var later := LastWithTitle(results[1..], title);
      if later.Some? then later
      else if results[0].title == title then Some(Ratios(results[0].data))
      else None
  }

  lemma {:induction false} AddColumnsFacts(cols: seq<Column>, results: seq<TrendResult>, rows: nat)
    requires AllOfLength(cols, rows) && DistinctNames(cols)
    ensures AddColumns(cols, results, rows).Ok? <==> forall i :: 0 <= i < |results| ==> |results[i].data| == rows
    ensures AddColumns(cols, results, rows).Ok? ==>
      var out := AddColumns(cols, results, rows).value;
      AllOfLength(out, rows) && DistinctNames(out)
      && forall n :: Lookup(out, n) == (if LastWithTitle(results, n).Some? then LastWithTitle(results, n) else Lookup(cols, n))
    decreases |results|
  {
    if results != [] && |results[0].data| == rows {
      var c := Column(results[0].title, Ratios(results[0].data));
      var next := SetColumn(cols, c);
      SetColumnLookup(cols, c);
      SetColumnDistinct(cols, c);
      SetColumnLengths(cols, c, rows);
      AddColumnsFacts(next, results[1..], rows);
      assert forall i :: 1 <= i < |results| ==> results[i] == results[1..][i - 1];
    }
  }

  /** The table has one row per period of the first result, and it exists
      exactly when every result has that many data points. */
  lemma FrameShape(results: seq<TrendResult>)
    ensures FrameOf(results).Ok? <==>
      results != [] && forall i :: 0 <= i < |results| ==> |results[i].data| == |results[0].data|
    ensures FrameOf(results).Ok? ==>
      var f := FrameOf(results).value;
      |f.dates| == |results[0].data|
      && (forall i :: 0 <= i < |f.dates| ==> f.dates[i] == results[0].data[i].period)
      && AllOfLength(f.columns, |f.dates|) && DistinctNames(f.columns)
  {
    if results != [] {
      AddColumnsFacts([], results, |results[0].data|);
    }
  }

  /** Each title's column holds the ratios of the last result with that
      title, in period order; no other column exists. */
  lemma FrameColumns(results: seq<TrendResult>)
    requires FrameOf(results).Ok?
    ensures forall n :: Lookup(FrameOf(results).value.columns, n) == LastWithTitle(results, n)
  {
    AddColumnsFacts([], results, |results[0].data|);
  }

  predicate DistinctTitles(results: seq<TrendResult>)
  {
    forall i, j :: 0 <= i < j < |results| ==> results[i].title != results[j].title
  }

  function ColumnsOf(results: seq<TrendResult>): seq<Column>
  {
    seq(|results|, i requires 0 <= i < |results| => Column(results[i].title, Ratios(results[i].data)))
  }

  lemma {:induction false} AddDistinctColumns(cols: seq<Column>, results: seq<TrendResult>, rows: nat)
    requires DistinctTitles(results)
    requires forall i :: 0 <= i < |results| ==> results[i].title !in Names(cols)
    requires forall i :: 0 <= i < |results| ==> |results[i].data| == rows
    ensures AddColumns(cols, results, rows) == Ok(cols + ColumnsOf(results))
    decreases |results|
  {
    if results != [] {
      var c := Column(results[0].title, Ratios(results[0].data));
      SetColumnAppends(cols, c);
      NamesAppend(cols, c);
      assert AddColumns(cols, results, rows) == AddColumns(cols + [c], results[1..], rows);
      assert forall i :: 0 <= i < |results[1..]| ==> results[1..][i] == results[i + 1];
      assert forall i :: 0 <= i < |results[1..]| ==> results[1..][i].title != c.name;
      AddDistinctColumns(cols + [c], results[1..], rows);
      assert ColumnsOf(results) == [c] + ColumnsOf(results[1..]);
      assert cols + [c] + ColumnsOf(results[1..]) == cols + ColumnsOf(results);
    } else {
      assert ColumnsOf(results) == [];
      assert cols + [] == cols;
    }
  }

  lemma NamesAppend(cols: seq<Column>, c: Column)
    ensures Names(cols + [c]) == Names(cols) + {c.name}
  {
    var r := cols + [c];
    forall n | n in Names(r) ensures n in Names(cols) + {c.name} {
      var k :| 0 <= k < |r| && r[k].name == n;
      if k < |cols| { assert cols[k].name == n; }
    }
    forall n | n in Names(cols) ensures n in Names(r) {
      var k :| 0 <= k < |cols| && cols[k].name == n;
      assert r[k].name == n;
    }
    assert r[|cols|].name == c.name;
  }

  /** With distinct titles the columns are exactly the results, in order. */
  lemma FrameOfDistinctTitles(results: seq<TrendResult>)
    requires results != [] && DistinctTitles(results)
    requires forall i :: 0 <= i < |results| ==> |results[i].data| == |results[0].data|
    ensures FrameOf(results) == Ok(TrendFrame(Periods(results[0].data), ColumnsOf(results)))
  {
    AddDistinctColumns([], results, |results[0].data|);
    assert [] + ColumnsOf(results) == ColumnsOf(results);
  }
}
