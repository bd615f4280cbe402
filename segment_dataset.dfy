// Dataset 4: one monthly trend request per keyword and audience segment,
// each successful pair contributing its average to stats_summary and one
// long-format record per month to the unified table; then the segment by
// keyword pivot of mean search volume, the rankings, the per-sport
// blue-ocean listings and quadrants, and the final blue-ocean summary.
module SegmentDataset {
  import opened Wrappers
  import opened Stats
  import opened Calendar
  import opened NaverHttp
  import opened NaverDataLab
  import opened Ranking
  import opened Dicts
  import opened SegmentRules
  import SegmentsDetailed
  import Text

  /** A segment with the labels its records carry. */
  datatype SegmentInfo = SegmentInfo(name: string, gender: string, ages: seq<string>, ageGroup: string, genderLabel: string)

  const SEGMENTS: seq<SegmentInfo> := [
    SegmentInfo("20대 여성", "f", ["3", "4"], "20대", "여성"),
    SegmentInfo("30대 여성", "f", ["5", "6"], "30대", "여성"),
    SegmentInfo("40대 여성", "f", ["7", "8"], "40대", "여성"),
    SegmentInfo("20대 남성", "m", ["3", "4"], "20대", "남성"),
    SegmentInfo("30대 남성", "m", ["5", "6"], "30대", "남성"),
    SegmentInfo("40대 남성", "m", ["7", "8"], "40대", "남성")
  ]

  const KEYWORDS: seq<string> := ["선크림", "스키장", "스키", "스노우보드"]

  /** One row of the unified long-format table. */
  datatype Record = Record(
    date: Date,
    keyword: string,
    segment: string,
    gender: string,
    ageGroup: string,
    searchVolume: real,
    year: int,
    month: int)

  /** What a successful pair yields: its average and its records. */
  datatype PairData = PairData(average: real, records: seq<Record>)

  function Args(keyword: string, s: SegmentInfo): TrendArgs
  {
    TrendArgs([keyword], SegmentsDetailed.START, SegmentsDetailed.END, "month", "", s.gender, s.ages)
  }

  function RecordAt(date: Date, volume: real, keyword: string, s: SegmentInfo): Record
  {
    Record(date, keyword, s.name, s.genderLabel, s.ageGroup, volume, date.year, date.month)
  }

  /** The iterrows loop: one record per row of the pair's table. */
  function RecordsOf(dates: seq<Date>, volumes: seq<real>, keyword: string, s: SegmentInfo): (r: seq<Record>)
    requires |volumes| == |dates|
    ensures |r| == |dates| && forall i :: 0 <= i < |dates| ==> r[i] == RecordAt(dates[i], volumes[i], keyword, s)
  {
    seq(|dates|, i requires 0 <= i < |dates| => RecordAt(dates[i], volumes[i], keyword, s))
  }

  /** The try block: present exactly when the call succeeds, the response
      converts, and a result is titled with the keyword. The average is the
      mean of that result's ratios, and there is one record per period of
      the first result, carrying the period, its year and month, the
      segment's labels and the keyword's ratio for that period. */
  function PairDataOf(r: Result<seq<TrendResult>, ApiError>, keyword: string, s: SegmentInfo): Option<PairData>
  {
    if r.Err? then None
    else
      FrameShape(r.value);
      match FrameOf(r.value)
      case Err(_) => None
      case Ok(f) =>
        FrameColumns(r.value);
        LookupLength(f.columns, keyword, |f.dates|);
        match Lookup(f.columns, keyword)
        case None => None
        case Some(v) => Some(PairData(ColumnMean(v), RecordsOf(f.dates, v, keyword, s)))
  }

  lemma PairDataFacts(r: Result<seq<TrendResult>, ApiError>, keyword: string, s: SegmentInfo)
    ensures var p := PairDataOf(r, keyword, s);
      (p.Some? <==> r.Ok? && FrameOf(r.value).Ok? && LastWithTitle(r.value, keyword).Some?)
      && (p.Some? ==>
        var col := LastWithTitle(r.value, keyword).value;
        var first := r.value[0].data;
        p.value.average == ColumnMean(col)
        && |col| == |first| && |p.value.records| == |first|
        && forall i :: 0 <= i < |first| ==> p.value.records[i] == RecordAt(first[i].period, col[i], keyword, s))
  {
    if r.Ok? {
      FrameShape(r.value);
      if FrameOf(r.value).Ok? {
        FrameColumns(r.value);
        LookupLength(FrameOf(r.value).value.columns, keyword, |FrameOf(r.value).value.dates|);
      }
    }
  }

  function Pair(post: TrendPost, keyword: string, s: SegmentInfo): Option<PairData>
  {
    PairDataOf(SearchTrend(post, Args(keyword, s)), keyword, s)
  }

  method CollectPair(post: TrendPost, keyword: string, s: SegmentInfo) returns (p: Option<PairData>)
    ensures p == Pair(post, keyword, s)
  {
    var result := GetSearchTrend(post, Args(keyword, s));
    p := None;
    if result.Ok? {
      var frame := ToDataFrame(result.value);
      if frame.Ok? {
        var column := Lookup(frame.value.columns, keyword);
        if column.Some? {
          FrameShape(result.value);
          LookupLength(frame.value.columns, keyword, |frame.value.dates|);
          var records := RecordsOf(frame.value.dates, column.value, keyword, s);
          p := Some(PairData(ColumnMean(column.value), records));
        }
      }
    }
  }

  // ---------------------------------------------------------------------
  // The collection loops

  function Names(segs: seq<SegmentInfo>): (r: seq<string>)
    ensures |r| == |segs| && forall i :: 0 <= i < |segs| ==> r[i] == segs[i].name
  {
    seq(|segs|, i requires 0 <= i < |segs| => segs[i].name)
  }

  lemma NamesAppend(segs: seq<SegmentInfo>, j: nat)
    requires j < |segs|
    ensures Names(segs[..j + 1]) == Names(segs[..j]) + [segs[j].name]
  {
    var longer := Names(segs[..j + 1]);
    var shorter := Names(segs[..j]) + [segs[j].name];
    forall i | 0 <= i < j + 1
      ensures longer[i] == shorter[i]
    {
      assert segs[..j + 1][i] == segs[i];
      if i < j {
        assert segs[..j][i] == segs[i];
      }
    }
  }

  /** The outcome of each segment under one pair function. */
  function Each(pair: SegmentInfo -> Option<PairData>, segs: seq<SegmentInfo>): (r: seq<Option<PairData>>)
    ensures |r| == |segs| && forall i :: 0 <= i < |segs| ==> r[i] == pair(segs[i])
  {
    seq(|segs|, i requires 0 <= i < |segs| => pair(segs[i]))
  }

  lemma EachAppend(pair: SegmentInfo -> Option<PairData>, segs: seq<SegmentInfo>, j: nat)
    requires j < |segs|
    ensures Each(pair, segs[..j + 1]) == Each(pair, segs[..j]) + [pair(segs[j])]
  {
    var longer := Each(pair, segs[..j + 1]);
    var shorter := Each(pair, segs[..j]) + [pair(segs[j])];
    forall i | 0 <= i < j + 1
      ensures longer[i] == shorter[i]
    {
      assert segs[..j + 1][i] == segs[i];
      if i < j {
        assert segs[..j][i] == segs[i];
      }
    }
  }

  /** The pair function of one keyword. */
  function PairFor(post: TrendPost, keyword: string): SegmentInfo -> Option<PairData>
  {
    s => Pair(post, keyword, s)
  }

  function Outcomes(post: TrendPost, keyword: string, segs: seq<SegmentInfo>): (r: seq<Option<PairData>>)
    ensures |r| == |segs| && forall i :: 0 <= i < |segs| ==> r[i] == Pair(post, keyword, segs[i])
  {
    Each(PairFor(post, keyword), segs)
  }

  /** The average a pair records: 0 after an exception. */
  function AverageOf(o: Option<PairData>): real
  {
    if o.Some? then o.value.average else 0.0
  }

  /** The records a pair appends: none after an exception. */
  function AddedOf(o: Option<PairData>): seq<Record>
  {
    if o.Some? then o.value.records else []
  }

  function Averages(os: seq<Option<PairData>>): (r: seq<real>)
    ensures |r| == |os| && forall i :: 0 <= i < |os| ==> r[i] == AverageOf(os[i])
  {
    seq(|os|, i requires 0 <= i < |os| => AverageOf(os[i]))
  }

  /** The records each pair appends, pair by pair. */
  function RecordLists(os: seq<Option<PairData>>): (r: seq<seq<Record>>)
    ensures |r| == |os| && forall i :: 0 <= i < |os| ==> r[i] == AddedOf(os[i])
  {
    seq(|os|, i requires 0 <= i < |os| => AddedOf(os[i]))
  }

  /** stats_summary[keyword] after the inner loop. */
  function KeywordRow(post: TrendPost, keyword: string, segs: seq<SegmentInfo>): seq<Entry>
  {
    Filled(Names(segs), Averages(Outcomes(post, keyword, segs)))
  }

  function KeywordRecords(post: TrendPost, keyword: string, segs: seq<SegmentInfo>): seq<Record>
  {
    Flatten(RecordLists(Outcomes(post, keyword, segs)))
  }

  function Rows(post: TrendPost, keywords: seq<string>, segs: seq<SegmentInfo>): (r: seq<seq<Entry>>)
    ensures |r| == |keywords|
  {
    seq(|keywords|, k requires 0 <= k < |keywords| => KeywordRow(post, keywords[k], segs))
  }

  function RecordParts(post: TrendPost, keywords: seq<string>, segs: seq<SegmentInfo>): (r: seq<seq<Record>>)
    ensures |r| == |keywords|
  {
    seq(|keywords|, k requires 0 <= k < |keywords| => KeywordRecords(post, keywords[k], segs))
  }

  /** stats_summary after the outer loop. */
  function StatsSummary(post: TrendPost, keywords: seq<string>, segs: seq<SegmentInfo>): map<string, seq<Entry>>
  {
    Nested(keywords, Rows(post, keywords, segs))
  }

  /** all_data_list after the outer loop. */
  function AllRecords(post: TrendPost, keywords: seq<string>, segs: seq<SegmentInfo>): seq<Record>
  {
    Flatten(RecordParts(post, keywords, segs))
  }

  /** Filling one more segment's average is one more assignment. */
  lemma FilledAppend(names: seq<string>, os: seq<Option<PairData>>, name: string, o: Option<PairData>)
    requires |names| == |os|
    ensures Filled(names + [name], Averages(os + [o])) == Assign(Filled(names, Averages(os)), name, AverageOf(o))
  {
    var n := |names|;
    var longerNames := names + [name];
    var longerValues := Averages(os + [o]);
    FilledStep(longerNames, longerValues, n);
    assert longerNames[..n] == names && longerValues[..n] == Averages(os);
    assert longerNames[..n + 1] == longerNames && longerValues[..n + 1] == longerValues;
  }

  /** One more pair appends its records after the earlier ones. */
  lemma RecordsAppend(os: seq<Option<PairData>>, o: Option<PairData>)
    ensures Flatten(RecordLists(os + [o])) == Flatten(RecordLists(os)) + AddedOf(o)
  {
    var lists := RecordLists(os + [o]);
    assert lists[..|os|] == RecordLists(os);
  }

  /** One more segment extends the keyword's row by its assignment and its
      records by what the pair appends. */
  lemma KeywordStep(post: TrendPost, keyword: string, segs: seq<SegmentInfo>, j: nat)
    requires j < |segs|
    ensures KeywordRow(post, keyword, segs[..j + 1])
      == Assign(KeywordRow(post, keyword, segs[..j]), segs[j].name, AverageOf(Pair(post, keyword, segs[j])))
    ensures KeywordRecords(post, keyword, segs[..j + 1])
      == KeywordRecords(post, keyword, segs[..j]) + AddedOf(Pair(post, keyword, segs[j]))
  {
    var os := Outcomes(post, keyword, segs[..j]);
    var o := Pair(post, keyword, segs[j]);
    EachAppend(PairFor(post, keyword), segs, j);
    NamesAppend(segs, j);
    FilledAppend(Names(segs[..j]), os, segs[j].name, o);
    RecordsAppend(os, o);
  }

  method CollectKeyword(post: TrendPost, keyword: string, segs: seq<SegmentInfo>)
    returns (row: seq<Entry>, records: seq<Record>)
    ensures row == KeywordRow(post, keyword, segs)
    ensures records == KeywordRecords(post, keyword, segs)
  {
    row := [];
    records := [];
    for j := 0 to |segs|
      invariant row == KeywordRow(post, keyword, segs[..j])
      invariant records == KeywordRecords(post, keyword, segs[..j])
    {
      var s := segs[j];
      var p := CollectPair(post, keyword, s);
      KeywordStep(post, keyword, segs, j);
      row := Assign(row, s.name, AverageOf(p));
      records := records + AddedOf(p);
    }
    assert segs[..|segs|] == segs;
  }

  /** main's collection loops: stats_summary, all_data_list and the
      progress counter, which ends at keywords × segments. */
  method CollectDataset(post: TrendPost, keywords: seq<string>, segs: seq<SegmentInfo>)
    returns (stats: map<string, seq<Entry>>, records: seq<Record>, count: nat)
    ensures stats == StatsSummary(post, keywords, segs)
    ensures records == AllRecords(post, keywords, segs)
    ensures count == |keywords| * |segs|
  {
    stats := map[];
    records := [];
    count := 0;
    ghost var rows := Rows(post, keywords, segs);
    ghost var parts := RecordParts(post, keywords, segs);
    for k := 0 to |keywords|
      invariant stats == Nested(keywords[..k], rows[..k])
      invariant records == Flatten(parts[..k])
      invariant count == k * |segs|
    {
      var row, added := CollectKeyword(post, keywords[k], segs);
      stats := stats[keywords[k] := row];
      records := records + added;
      count := count + |segs|;
      MultiplyStep(k, |segs|);
      NestedStep(keywords, rows, k);
      FlattenStep(parts, k);
    }
    assert keywords[..|keywords|] == keywords && rows[..|keywords|] == rows && parts[..|keywords|] == parts;
  }

  // ---------------------------------------------------------------------
  // The pivot: mean search volume by segment and keyword, missing pairs
  // filled with 0, rows reindexed to the segment order

  /** The search volumes of the records of one segment and keyword. */
  function Volumes(records: seq<Record>, segment: string, keyword: string): seq<real>
  {
    if records == [] then []
    else
      var n := |records| - 1;
      Volumes(records[..n], segment, keyword)
        + (if records[n].segment == segment && records[n].keyword == keyword then [records[n].searchVolume] else [])
  }

  predicate HasSegment(records: seq<Record>, segment: string)
  {
    exists i :: 0 <= i < |records| && records[i].segment == segment
  }

  predicate HasKeyword(records: seq<Record>, keyword: string)
  {
    exists i :: 0 <= i < |records| && records[i].keyword == keyword
  }

  /** The pivot's columns: groupby sorts its keys, so unstack gives each
      keyword that occurs in the records once, in Python's string order. */
  function PresentKeywords(records: seq<Record>): (r: seq<string>)
    ensures Text.Ascending(r)
    ensures forall x :: x in r <==> HasKeyword(records, x)
  {
    if records == [] then []
    else
      var n := |records| - 1;
      var prev := PresentKeywords(records[..n]);
      forall x ensures HasKeyword(records, x) <==> HasKeyword(records[..n], x) || records[n].keyword == x {
        if HasKeyword(records[..n], x) {
          var i :| 0 <= i < n && records[..n][i].keyword == x;
          assert records[i].keyword == x;
        }
        if HasKeyword(records, x) && records[n].keyword != x {
          var i :| 0 <= i < |records| && records[i].keyword == x;
          assert records[..n][i].keyword == x;
        }
      }
      Text.InsertKey(records[n].keyword, prev)
  }

  /** A cell: no value (NaN) for a segment without records; otherwise the
      mean of its volumes for the keyword, or the fill value 0. */
  function PivotCell(records: seq<Record>, segment: string, keyword: string): Option<real>
  {
    if HasSegment(records, segment) then Some(ColumnMean(Volumes(records, segment, keyword))) else None
  }

  datatype Pivot = Pivot(rows: seq<string>, columns: seq<string>, cells: seq<seq<Option<real>>>)

  /** groupby(['segment', 'keyword']).mean().unstack(fill_value=0),
      reindexed to the segment order: a row per segment in that order, a
      column per keyword present in Python's string order, and each cell
      the segment's mean volume for the keyword. */
  function PivotOf(records: seq<Record>, names: seq<string>): (p: Pivot)
    ensures p.rows == names && |p.cells| == |names|
    ensures Text.Ascending(p.columns)
    ensures forall x :: x in p.columns <==> HasKeyword(records, x)
    ensures forall i :: 0 <= i < |names| ==> |p.cells[i]| == |p.columns|
    ensures forall i, j :: 0 <= i < |names| && 0 <= j < |p.columns| ==>
      p.cells[i][j] == PivotCell(records, names[i], p.columns[j])
  {
    var cols := PresentKeywords(records);
    Pivot(names, cols, seq(|names|, i requires 0 <= i < |names| =>
      seq(|cols|, j requires 0 <= j < |cols| => PivotCell(records, names[i], cols[j]))))
  }

  lemma {:induction false} VolumesAppend(a: seq<Record>, b: seq<Record>, segment: string, keyword: string)
    ensures Volumes(a + b, segment, keyword) == Volumes(a, segment, keyword) + Volumes(b, segment, keyword)
  {
    if b == [] {
      assert a + b == a;
    } else {
      var n := |b| - 1;
      VolumesAppend(a, b[..n], segment, keyword);
      assert (a + b)[..|a + b| - 1] == a + b[..n];
    }
  }

  /** Records of other pairs contribute no volume. */
  lemma {:induction false} VolumesForeign(records: seq<Record>, segment: string, keyword: string)
    requires forall j :: 0 <= j < |records| ==> records[j].segment != segment || records[j].keyword != keyword
    ensures Volumes(records, segment, keyword) == []
  {
    if records != [] {
      VolumesForeign(records[..|records| - 1], segment, keyword);
    }
  }

  /** A pair's own records contribute all their volumes, in order. */
  lemma {:induction false} VolumesOwn(records: seq<Record>, segment: string, keyword: string)
    requires forall j :: 0 <= j < |records| ==> records[j].segment == segment && records[j].keyword == keyword
    ensures Volumes(records, segment, keyword) == seq(|records|, j requires 0 <= j < |records| => records[j].searchVolume)
  {
    if records != [] {
      VolumesOwn(records[..|records| - 1], segment, keyword);
    }
  }

  /** When only one part holds records of the pair, the whole does too. */
  lemma {:induction false} VolumesOnly(parts: seq<seq<Record>>, k0: nat, segment: string, keyword: string)
    requires k0 < |parts|
    requires forall k :: 0 <= k < |parts| && k != k0 ==> Volumes(parts[k], segment, keyword) == []
    ensures Volumes(Flatten(parts), segment, keyword) == Volumes(parts[k0], segment, keyword)
  {
    var n := |parts| - 1;
    VolumesAppend(Flatten(parts[..n]), parts[n], segment, keyword);
    if k0 < n {
      VolumesOnly(parts[..n], k0, segment, keyword);
    } else if n > 0 {
      VolumesNone(parts[..n], segment, keyword);
    }
  }

  lemma {:induction false} VolumesNone(parts: seq<seq<Record>>, segment: string, keyword: string)
    requires forall k :: 0 <= k < |parts| ==> Volumes(parts[k], segment, keyword) == []
    ensures Volumes(Flatten(parts), segment, keyword) == []
  {
    if parts != [] {
      var n := |parts| - 1;
      VolumesAppend(Flatten(parts[..n]), parts[n], segment, keyword);
      VolumesNone(parts[..n], segment, keyword);
    }
  }

  /** A record contributing a volume names its segment. */
  lemma {:induction false} VolumesHasSegment(records: seq<Record>, segment: string, keyword: string)
    requires Volumes(records, segment, keyword) != []
    ensures HasSegment(records, segment)
  {
    var n := |records| - 1;
    if !(records[n].segment == segment && records[n].keyword == keyword) {
      VolumesHasSegment(records[..n], segment, keyword);
      var i :| 0 <= i < n && records[..n][i].segment == segment;
      assert records[i].segment == segment;
    }
  }

  /** Every record of a flattened list comes from one of its parts. */
  lemma {:induction false} FlattenMember(parts: seq<seq<Record>>, j: nat)
    requires j < |Flatten(parts)|
    ensures exists k, m :: 0 <= k < |parts| && 0 <= m < |parts[k]| && Flatten(parts)[j] == parts[k][m]
  {
    var n := |parts| - 1;
    var prev := Flatten(parts[..n]);
    if j < |prev| {
      FlattenMember(parts[..n], j);
      var k, m :| 0 <= k < n && 0 <= m < |parts[..n][k]| && prev[j] == parts[..n][k][m];
      assert parts[..n][k] == parts[k];
    } else {
      assert Flatten(parts)[j] == parts[n][j - |prev|];
    }
  }

  /** The records of one keyword's pairs all carry that keyword, and the
      records of a pair carry its segment. */
  lemma KeywordRecordsTagged(post: TrendPost, keyword: string, segs: seq<SegmentInfo>, j: nat)
    requires j < |KeywordRecords(post, keyword, segs)|
    ensures KeywordRecords(post, keyword, segs)[j].keyword == keyword
    ensures exists i :: 0 <= i < |segs| && KeywordRecords(post, keyword, segs)[j].segment == segs[i].name
  {
    var lists := RecordLists(Outcomes(post, keyword, segs));
    FlattenMember(lists, j);
    var i, m :| 0 <= i < |lists| && 0 <= m < |lists[i]| && KeywordRecords(post, keyword, segs)[j] == lists[i][m];
    var p := Pair(post, keyword, segs[i]);
    var r := SearchTrend(post, Args(keyword, segs[i]));
    PairDataFacts(r, keyword, segs[i]);
    assert p.Some?;
    assert p.value.records[m] == RecordAt(r.value[0].data[m].period, LastWithTitle(r.value, keyword).value[m], keyword, segs[i]);
  }

  /** Within one keyword's records, only the pair's own segment contributes
      volumes for that segment, and its volumes are its column. */
  lemma KeywordVolumes(post: TrendPost, kw: string, segs: seq<SegmentInfo>, i: nat)
    requires i < |segs|
    requires forall a, b :: 0 <= a < b < |segs| ==> segs[a].name != segs[b].name
    requires Pair(post, kw, segs[i]).Some?
    ensures var r := SearchTrend(post, Args(kw, segs[i]));
      r.Ok? && LastWithTitle(r.value, kw).Some?
      && Volumes(KeywordRecords(post, kw, segs), segs[i].name, kw) == LastWithTitle(r.value, kw).value
  {
    var seg := segs[i].name;
    var p := Pair(post, kw, segs[i]).value;
    var r := SearchTrend(post, Args(kw, segs[i]));
    PairDataFacts(r, kw, segs[i]);
    VolumesOwn(p.records, seg, kw);
    assert Volumes(p.records, seg, kw) == LastWithTitle(r.value, kw).value;
    var lists := RecordLists(Outcomes(post, kw, segs));
    forall a | 0 <= a < |lists| && a != i
      ensures Volumes(lists[a], seg, kw) == []
    {
      if Pair(post, kw, segs[a]).Some? {
        PairDataFacts(SearchTrend(post, Args(kw, segs[a])), kw, segs[a]);
        var q := Pair(post, kw, segs[a]).value;
        assert forall m :: 0 <= m < |q.records| ==> q.records[m].segment == segs[a].name;
        VolumesForeign(lists[a], seg, kw);
      }
    }
    VolumesOnly(lists, i, seg, kw);
  }

  /** Another keyword's records contribute no volume for this keyword. */
  lemma ForeignKeyword(post: TrendPost, other: string, segs: seq<SegmentInfo>, seg: string, kw: string)
    requires other != kw
    ensures Volumes(KeywordRecords(post, other, segs), seg, kw) == []
  {
    var records := KeywordRecords(post, other, segs);
    forall j | 0 <= j < |records|
      ensures records[j].keyword != kw
    {
      KeywordRecordsTagged(post, other, segs, j);
    }
    VolumesForeign(records, seg, kw);
  }

  /** A pair whose request succeeded with at least one month has the pivot
      cell equal to the average stats_summary records for it. */
  lemma PivotMatchesSummary(post: TrendPost, keywords: seq<string>, segs: seq<SegmentInfo>, k: nat, i: nat)
    requires k < |keywords| && i < |segs|
    requires forall a, b :: 0 <= a < b < |keywords| ==> keywords[a] != keywords[b]
    requires forall a, b :: 0 <= a < b < |segs| ==> segs[a].name != segs[b].name
    requires Pair(post, keywords[k], segs[i]).Some? && Pair(post, keywords[k], segs[i]).value.records != []
    ensures PivotCell(AllRecords(post, keywords, segs), segs[i].name, keywords[k]) == Some(Pair(post, keywords[k], segs[i]).value.average)
  {
    var seg := segs[i].name;
    var kw := keywords[k];
    PairDataFacts(SearchTrend(post, Args(kw, segs[i])), kw, segs[i]);
    KeywordVolumes(post, kw, segs, i);
    var parts := RecordParts(post, keywords, segs);
    forall b | 0 <= b < |parts| && b != k
      ensures Volumes(parts[b], seg, kw) == []
    {
      ForeignKeyword(post, keywords[b], segs, seg, kw);
    }
    VolumesOnly(parts, k, seg, kw);
    VolumesHasSegment(AllRecords(post, keywords, segs), seg, kw);
  }

  /** Every record carries one of the keywords requested. */
  lemma AllRecordsKeywords(post: TrendPost, keywords: seq<string>, segs: seq<SegmentInfo>, x: string)
    requires HasKeyword(AllRecords(post, keywords, segs), x)
    ensures x in keywords
  {
    var records := AllRecords(post, keywords, segs);
    var j :| 0 <= j < |records| && records[j].keyword == x;
    var parts := RecordParts(post, keywords, segs);
    FlattenMember(parts, j);
    var k, m :| 0 <= k < |parts| && 0 <= m < |parts[k]| && records[j] == parts[k][m];
    KeywordRecordsTagged(post, keywords[k], segs, m);
  }

  /** The script's keywords in Python's string order. */
  lemma SortedKeywords()
    ensures Text.Ascending(["선크림", "스노우보드", "스키", "스키장"])
    ensures forall x :: x in KEYWORDS <==> x in ["선크림", "스노우보드", "스키", "스키장"]
  {
    var s: seq<string> := ["선크림", "스노우보드", "스키", "스키장"];
    assert Text.Less(s[0], s[1]) && Text.Less(s[0], s[2]) && Text.Less(s[0], s[3]);
    assert s[1][1..] == "노우보드" && s[2][1..] == "키" && s[3][1..] == "키장";
    assert Text.Less(s[1][1..], s[2][1..]) && Text.Less(s[1][1..], s[3][1..]);
    assert s[2][1..][1..] == "" && s[3][1..][1..] == "장";
    assert Text.Less(s[2][1..][1..], s[3][1..][1..]);
    assert Text.Less(s[2][1..], s[3][1..]);
  }

  /** When every keyword produced a record, the saved pivot's columns are
      선크림, 스노우보드, 스키, 스키장: string order, not the order in which
      the keywords were requested. */
  lemma PivotColumnOrder(post: TrendPost)
    requires forall k :: 0 <= k < |KEYWORDS| ==> HasKeyword(AllRecords(post, KEYWORDS, SEGMENTS), KEYWORDS[k])
    ensures DatasetOf(post).Ok?
    ensures DatasetOf(post).value.pivot.columns == ["선크림", "스노우보드", "스키", "스키장"]
  {
    var records := AllRecords(post, KEYWORDS, SEGMENTS);
    assert HasKeyword(records, KEYWORDS[0]);
    var cols := PivotOf(records, Names(SEGMENTS)).columns;
    var sorted: seq<string> := ["선크림", "스노우보드", "스키", "스키장"];
    SortedKeywords();
    forall x ensures x in cols <==> x in sorted {
      if HasKeyword(records, x) {
        AllRecordsKeywords(post, KEYWORDS, SEGMENTS, x);
      }
      if x in KEYWORDS {
        var k :| 0 <= k < |KEYWORDS| && KEYWORDS[k] == x;
      }
    }
    Text.AscendingUnique(cols, sorted);
  }

  // ---------------------------------------------------------------------
  // The final blue-ocean summary: for each segment with suncream below its
  // mean, the sports whose value reaches the sport's mean

  datatype SummaryEntry = SummaryEntry(segment: string, sports: seq<string>)

  /** The inner loop over the three sports; `sp` and `spAvg` hold each
      sport's value for the segment and its mean. */
  function SportsFor(sc: real, scAvg: real, sp: seq<real>, spAvg: seq<real>): seq<string>
    requires |sp| == 3 && |spAvg| == 3
  {
    (if sc < scAvg && sp[0] >= spAvg[0] then [SPORTS[0]] else [])
    + (if sc < scAvg && sp[1] >= spAvg[1] then [SPORTS[1]] else [])
    + (if sc < scAvg && sp[2] >= spAvg[2] then [SPORTS[2]] else [])
  }

  /** A sport is listed exactly when suncream is below its mean and the
      sport reaches its own mean; nothing is listed otherwise. */
  lemma SportsForFacts(sc: real, scAvg: real, sp: seq<real>, spAvg: seq<real>)
    requires |sp| == 3 && |spAvg| == 3
    ensures var r := SportsFor(sc, scAvg, sp, spAvg);
      (forall k :: 0 <= k < 3 ==> (SPORTS[k] in r <==> sc < scAvg && sp[k] >= spAvg[k]))
      && (r != [] ==> sc < scAvg)
  {
    assert SPORTS[0] != SPORTS[1] && SPORTS[1] != SPORTS[2] && SPORTS[0] != SPORTS[2] by {
      assert |SPORTS[0]| == 3 && |SPORTS[1]| == 2 && |SPORTS[2]| == 5;
    }
  }

  predicate Columns3(names: seq<string>, sp: seq<seq<real>>)
  {
    |sp| == 3 && forall k :: 0 <= k < 3 ==> |sp[k]| == |names|
  }

  function SportsAt(sp: seq<seq<real>>, i: nat): (r: seq<real>)
    requires |sp| == 3 && forall k :: 0 <= k < 3 ==> i < |sp[k]|
    ensures |r| == 3 && forall k :: 0 <= k < 3 ==> r[k] == sp[k][i]
  {
    [sp[0][i], sp[1][i], sp[2][i]]
  }

  /** The summary of the first `m` segments, in segment order. */
  function BlueSummary(names: seq<string>, sc: seq<real>, scAvg: real, sp: seq<seq<real>>, spAvg: seq<real>, m: nat): (r: seq<SummaryEntry>)
    requires |sc| == |names| && Columns3(names, sp) && |spAvg| == 3 && m <= |names|
    ensures |r| <= m
  {
    if m == 0 then []
    else
      var sports := SportsFor(sc[m - 1], scAvg, SportsAt(sp, m - 1), spAvg);
      BlueSummary(names, sc, scAvg, sp, spAvg, m - 1)
        + (if sports != [] then [SummaryEntry(names[m - 1], sports)] else [])
  }

  /** The summary's sports of a segment, or None when it is absent. */
  function Find(summary: seq<SummaryEntry>, name: string): Option<seq<string>>
  {
    if summary == [] then None
    else if summary[0].segment == name then Some(summary[0].sports)
    else Find(summary[1..], name)
  }

  lemma {:induction false} FindAppend(a: seq<SummaryEntry>, b: seq<SummaryEntry>, name: string)
    ensures Find(a + b, name) == if Find(a, name).Some? then Find(a, name) else Find(b, name)
  {
    if a == [] {
      assert a + b == b;
    } else {
      assert (a + b)[1..] == a[1..] + b;
      FindAppend(a[1..], b, name);
    }
  }

  lemma {:induction false} FindAbsent(names: seq<string>, sc: seq<real>, scAvg: real, sp: seq<seq<real>>, spAvg: seq<real>, m: nat, name: string)
    requires |sc| == |names| && Columns3(names, sp) && |spAvg| == 3 && m <= |names|
    requires forall i :: 0 <= i < m ==> names[i] != name
    ensures Find(BlueSummary(names, sc, scAvg, sp, spAvg, m), name) == None
  {
    if m > 0 {
      FindAbsent(names, sc, scAvg, sp, spAvg, m - 1, name);
      var sports := SportsFor(sc[m - 1], scAvg, SportsAt(sp, m - 1), spAvg);
      FindAppend(BlueSummary(names, sc, scAvg, sp, spAvg, m - 1),
        if sports != [] then [SummaryEntry(names[m - 1], sports)] else [], name);
    }
  }

  /** A segment is in the summary exactly when some sport qualifies, and
      then it lists the qualifying sports in sport order. */
  lemma {:induction false} SummaryAt(names: seq<string>, sc: seq<real>, scAvg: real, sp: seq<seq<real>>, spAvg: seq<real>, m: nat, i: nat)
    requires |sc| == |names| && Columns3(names, sp) && |spAvg| == 3 && i < m <= |names|
    requires forall a, b :: 0 <= a < b < |names| ==> names[a] != names[b]
    ensures var sports := SportsFor(sc[i], scAvg, SportsAt(sp, i), spAvg);
      Find(BlueSummary(names, sc, scAvg, sp, spAvg, m), names[i]) == if sports != [] then Some(sports) else None
  {
    var sports := SportsFor(sc[m - 1], scAvg, SportsAt(sp, m - 1), spAvg);
    var last := if sports != [] then [SummaryEntry(names[m - 1], sports)] else [];
    var prefix := BlueSummary(names, sc, scAvg, sp, spAvg, m - 1);
    assert BlueSummary(names, sc, scAvg, sp, spAvg, m) == prefix + last;
    FindAppend(prefix, last, names[i]);
    if i < m - 1 {
      SummaryAt(names, sc, scAvg, sp, spAvg, m - 1, i);
      assert names[m - 1] != names[i];
      assert Find(last, names[i]) == None;
    } else {
      FindAbsent(names, sc, scAvg, sp, spAvg, m - 1, names[i]);
      assert Find(last, names[i]) == if sports != [] then Some(sports) else None;
    }
  }

  /** A sport is listed for a segment exactly when the segment is in the
      sport's blue-ocean quadrant (B). */
  lemma SummaryIsQuadrantB(names: seq<string>, sc: seq<real>, scAvg: real, sp: seq<seq<real>>, spAvg: seq<real>, i: nat, k: nat)
    requires |sc| == |names| && Columns3(names, sp) && |spAvg| == 3 && i < |names| && k < 3
    requires forall a, b :: 0 <= a < b < |names| ==> names[a] != names[b]
    ensures SPORTS[k] in SportsFor(sc[i], scAvg, SportsAt(sp, i), spAvg)
      <==> names[i] in InQuadrant(names, sc, sp[k], scAvg, spAvg[k], BlueOcean)
  {
    InQuadrantMembers(names, sc, sp[k], scAvg, spAvg[k], BlueOcean, i);
    SportsForFacts(sc[i], scAvg, SportsAt(sp, i), spAvg);
  }

  /** The sports among the first `m` that qualify. */
  function SportsPrefix(sc: real, scAvg: real, sp: seq<real>, spAvg: seq<real>, m: nat): seq<string>
    requires |sp| == 3 && |spAvg| == 3 && m <= 3
  {
    if m == 0 then []
    else SportsPrefix(sc, scAvg, sp, spAvg, m - 1) + (if sc < scAvg && sp[m - 1] >= spAvg[m - 1] then [SPORTS[m - 1]] else [])
  }

  lemma SportsPrefixFull(sc: real, scAvg: real, sp: seq<real>, spAvg: seq<real>)
    requires |sp| == 3 && |spAvg| == 3
    ensures SportsPrefix(sc, scAvg, sp, spAvg, 3) == SportsFor(sc, scAvg, sp, spAvg)
  {
    assert SportsPrefix(sc, scAvg, sp, spAvg, 1) == (if sc < scAvg && sp[0] >= spAvg[0] then [SPORTS[0]] else []);
  }

  /** The loop building blueocean_summary, with its inner loop over sports. */
  method BuildSummary(names: seq<string>, sc: seq<real>, scAvg: real, sp: seq<seq<real>>, spAvg: seq<real>)
    returns (summary: seq<SummaryEntry>)
    requires |sc| == |names| && Columns3(names, sp) && |spAvg| == 3
    ensures summary == BlueSummary(names, sc, scAvg, sp, spAvg, |names|)
  {
    summary := [];
    for i := 0 to |names|
      invariant summary == BlueSummary(names, sc, scAvg, sp, spAvg, i)
    {
      var sports: seq<string> := [];
      for k := 0 to 3
        invariant sports == SportsPrefix(sc[i], scAvg, SportsAt(sp, i), spAvg, k)
      {
        if sc[i] < scAvg && sp[k][i] >= spAvg[k] {
          sports := sports + [SPORTS[k]];
        }
      }
      SportsPrefixFull(sc[i], scAvg, SportsAt(sp, i), spAvg);
      if sports != [] {
        summary := summary + [SummaryEntry(names[i], sports)];
      }
    }
  }

  // ---------------------------------------------------------------------
  // The analysis and main's result

  datatype Report = Report(
    rankings: seq<seq<RankedEntry>>,
    suncreamAverage: real,
    views: seq<SportView>,
    summary: seq<SummaryEntry>)

  function ReportOf(stats: map<string, seq<Entry>>, names: seq<string>): Report
    requires SegmentsDetailed.Ready(stats, KEYWORDS, names)
  {
    var sc := SegmentsDetailed.SuncreamValues(stats, names);
    var scAvg := Mean(sc);
    var sp := seq(3, k requires 0 <= k < 3 => SegmentsDetailed.SegmentValues(stats, SPORTS[k], names));
    var spAvg := seq(3, k requires 0 <= k < 3 => Mean(sp[k]));
    Report(
      seq(|KEYWORDS|, k requires 0 <= k < |KEYWORDS| => Ranked(stats[KEYWORDS[k]])),
      scAvg,
      SegmentsDetailed.Views(stats, names),
      BlueSummary(names, sc, scAvg, sp, spAvg, |names|))
  }

  /** df_unified['date'] raises KeyError when no pair produced a record. */
  datatype DatasetError = NoRecords

  datatype Dataset = Dataset(records: seq<Record>, stats: map<string, seq<Entry>>, pivot: Pivot, report: Report)

  /** The six segment names differ in the decade digit or the gender syllable. */
  lemma SegmentsDistinct()
    ensures |SEGMENTS| == 6
    ensures forall a, b :: 0 <= a < b < 6 ==> SEGMENTS[a].name != SEGMENTS[b].name
  {
    var names := Names(SEGMENTS);
    assert forall i :: 0 <= i < 6 ==> |names[i]| == 6;
    assert names[0][0] == names[3][0] == '2' && names[1][0] == names[4][0] == '3' && names[2][0] == names[5][0] == '4';
    assert names[0][4] == names[1][4] == names[2][4] == '여' && names[3][4] == names[4][4] == names[5][4] == '남';
  }

  /** The four keywords differ, suncream first and then the sports. */
  lemma KeywordsDistinct()
    ensures |KEYWORDS| == 4
    ensures forall a, b :: 0 <= a < b < 4 ==> KEYWORDS[a] != KEYWORDS[b]
    ensures KEYWORDS[0] == SUNCREAM && forall k :: 0 <= k < 3 ==> KEYWORDS[k + 1] == SPORTS[k]
  {
    assert |KEYWORDS[0]| == 3 && |KEYWORDS[1]| == 3 && |KEYWORDS[2]| == 2 && |KEYWORDS[3]| == 5;
    assert KEYWORDS[0][0] == '선' && KEYWORDS[1][0] == '스';
  }

  lemma ConstantsDistinct()
    ensures |SEGMENTS| == 6 && |KEYWORDS| == 4
    ensures forall a, b :: 0 <= a < b < 6 ==> SEGMENTS[a].name != SEGMENTS[b].name
    ensures forall a, b :: 0 <= a < b < 4 ==> KEYWORDS[a] != KEYWORDS[b]
    ensures KEYWORDS[0] == SUNCREAM && forall k :: 0 <= k < 3 ==> KEYWORDS[k + 1] == SPORTS[k]
  {
    SegmentsDistinct();
    KeywordsDistinct();
  }

  /** With distinct segment names a keyword's dict is keyed by the segments in order. */
  lemma RowKeys(post: TrendPost, keyword: string, segs: seq<SegmentInfo>)
    requires forall a, b :: 0 <= a < b < |segs| ==> segs[a].name != segs[b].name
    ensures Keys(KeywordRow(post, keyword, segs)) == Names(segs)
  {
    FilledInOrder(Names(segs), Averages(Outcomes(post, keyword, segs)));
  }

  /** The collected stats_summary of the script's own keywords and
      segments is always ready for the analysis. */
  lemma CollectedReady(post: TrendPost)
    ensures SegmentsDetailed.Ready(StatsSummary(post, KEYWORDS, SEGMENTS), KEYWORDS, Names(SEGMENTS))
  {
    ConstantsDistinct();
    var names := Names(SEGMENTS);
    var stats := StatsSummary(post, KEYWORDS, SEGMENTS);
    var rows := Rows(post, KEYWORDS, SEGMENTS);
    forall k | 0 <= k < 4
      ensures KEYWORDS[k] in stats && Keys(stats[KEYWORDS[k]]) == names
    {
      NestedAt(KEYWORDS, rows, k);
      RowKeys(post, KEYWORDS[k], SEGMENTS);
    }
    forall key | key in stats
      ensures Keys(stats[key]) == names
    {
      NestedKeys(KEYWORDS, rows, key);
      var k :| 0 <= k < 4 && KEYWORDS[k] == key;
    }
  }

  function DatasetOf(post: TrendPost): Result<Dataset, DatasetError>
  {
    var records := AllRecords(post, KEYWORDS, SEGMENTS);
    var stats := StatsSummary(post, KEYWORDS, SEGMENTS);
    var names := Names(SEGMENTS);
    if records == [] then Err(NoRecords)
    else
      CollectedReady(post);
      Ok(Dataset(records, stats, PivotOf(records, names), ReportOf(stats, names)))
  }

  /** Sections 9 to 12: rankings, the per-sport loop and the summary loop. */
  method Analyze(stats: map<string, seq<Entry>>, names: seq<string>) returns (report: Report)
    requires SegmentsDetailed.Ready(stats, KEYWORDS, names)
    ensures report == ReportOf(stats, names)
  {
    var sc := SegmentsDetailed.SuncreamValues(stats, names);
    var scAvg := Mean(sc);
    var sp := seq(3, k requires 0 <= k < 3 => SegmentsDetailed.SegmentValues(stats, SPORTS[k], names));
    var spAvg := seq(3, k requires 0 <= k < 3 => Mean(sp[k]));
    var views := SegmentsDetailed.SportViews(stats, names);
    var summary := BuildSummary(names, sc, scAvg, sp, spAvg);
    var rankings := seq(|KEYWORDS|, k requires 0 <= k < |KEYWORDS| => Ranked(stats[KEYWORDS[k]]));
    report := Report(rankings, scAvg, views, summary);
  }

  /** main(): collection, then the unified table and pivot, then the analysis. */
  method RunDataset(post: TrendPost) returns (r: Result<Dataset, DatasetError>)
    ensures r == DatasetOf(post)
  {
    var stats, records, count := CollectDataset(post, KEYWORDS, SEGMENTS);
    if records == [] {
      return Err(NoRecords);
    }
    var names := Names(SEGMENTS);
    var pivot := PivotOf(records, names);
    CollectedReady(post);
    var report := Analyze(stats, names);
    r := Ok(Dataset(records, stats, pivot, report));
  }

  /** The run produces a dataset exactly when some pair produced a record. */
  lemma DatasetExists(post: TrendPost)
    ensures DatasetOf(post).Ok? <==> AllRecords(post, KEYWORDS, SEGMENTS) != []
    ensures DatasetOf(post).Ok? ==> |DatasetOf(post).value.report.summary| <= 6
  {
    if AllRecords(post, KEYWORDS, SEGMENTS) != [] {
      CollectedReady(post);
    }
  }
}
