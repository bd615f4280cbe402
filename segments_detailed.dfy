// The detailed segment collection: one monthly trend request per keyword
// group and audience segment (gender and age bands), the per-pair average
// of the group's first keyword (0 when the request or the conversion
// fails), one CSV file per successful pair, and the analysis printed from
// the averages: rankings, the keyword-by-segment matrix, each keyword's top
// segment, the cross table with its flags, and the per-sport blue-ocean
// listings and quadrants.
module SegmentsDetailed {
  import opened Wrappers
  import opened Text
  import opened Stats
  import opened NaverHttp
  import opened NaverDataLab
  import opened Ranking
  import opened Dicts
  import opened SegmentRules

  /** An audience segment: its display name, the API's gender code and age bands. */
  datatype Segment = Segment(name: string, gender: string, ages: seq<string>)

  const SEGMENTS: seq<Segment> := [
    Segment("20대 여성", "f", ["3", "4"]),
    Segment("30대 여성", "f", ["5", "6"]),
    Segment("40대 여성", "f", ["7", "8"]),
    Segment("20대 남성", "m", ["3", "4"]),
    Segment("30대 남성", "m", ["5", "6"]),
    Segment("40대 남성", "m", ["7", "8"])
  ]

  const KEYWORD_GROUPS: seq<KeywordGroup> := [
    KeywordGroup("선크림", ["선크림"]),
    KeywordGroup("스키장", ["스키장"]),
    KeywordGroup("스키", ["스키"]),
    KeywordGroup("스노우보드", ["스노우보드"])
  ]

  const START: string := "2023-01-01"
  const END: string := "2025-11-15"

  /** The request for one pair: monthly, all devices, the segment's audience. */
  function SegmentArgs(keywords: seq<string>, s: Segment): TrendArgs
  {
    TrendArgs(keywords, START, END, "month", "", s.gender, s.ages)
  }

  /** The try block's average: present exactly when the call succeeds, the
      response converts to a table, and some result is titled with the
      group's first keyword; it is the mean of the last such result. */
  function SegmentAverage(r: Result<seq<TrendResult>, ApiError>, keywords: seq<string>): (a: Option<real>)
    ensures a.Some? <==>
      r.Ok? && FrameOf(r.value).Ok? && keywords != [] && LastWithTitle(r.value, keywords[0]).Some?
    ensures a.Some? ==> a.value == ColumnMean(LastWithTitle(r.value, keywords[0]).value)
  {
    if r.Err? then None
    else
      match FrameOf(r.value)
      case Err(_) => None
      case Ok(f) =>
        FrameColumns(r.value);
        if keywords == [] then None
        else
          match Lookup(f.columns, keywords[0])
          case None => None
          case Some(v) => Some(ColumnMean(v))
  }

  function PairAverage(post: TrendPost, g: KeywordGroup, s: Segment): Option<real>
  {
    SegmentAverage(SearchTrend(post, SegmentArgs(g.keywords, s)), g.keywords)
  }

  /** What all_stats records for the pair: the average, or 0 after an exception. */
  function PairValue(post: TrendPost, g: KeywordGroup, s: Segment): real
  {
    OrZero(PairAverage(post, g, s))
  }

  /** One pair's request, conversion and average. */
  method CollectPair(post: TrendPost, g: KeywordGroup, s: Segment) returns (avg: Option<real>)
    ensures avg == PairAverage(post, g, s)
  {
    var result := GetSearchTrend(post, SegmentArgs(g.keywords, s));
    avg := None;
    if result.Ok? {
      var frame := ToDataFrame(result.value);
      if frame.Ok? && |g.keywords| > 0 {
        var column := Lookup(frame.value.columns, g.keywords[0]);
        if column.Some? {
          avg := Some(ColumnMean(column.value));
        }
      }
    }
  }

  /** f"03_segment_{keyword_name}_{name.replace(' ', '_')}.csv" */
  function FileName(group: string, segment: string): string
  {
    "03_segment_" + group + "_" + ReplaceAll(segment, ' ', '_') + ".csv"
  }

  /** The file of a pair starts with the fixed prefix and the group name,
      ends in ".csv", and keeps no space of the segment name. */
  lemma FileNameShape(group: string, segment: string)
    ensures var f := FileName(group, segment);
      |f| == 16 + |group| + |segment|
      && f[..11] == "03_segment_" && f[11..11 + |group|] == group
      && f[|f| - 4..] == ".csv"
      && forall i :: 12 + |group| <= i < 12 + |group| + |segment| ==> f[i] != ' '
  {
    var f := FileName(group, segment);
    var r := ReplaceAll(segment, ' ', '_');
    assert f == "03_segment_" + group + "_" + r + ".csv";
    assert forall i :: 12 + |group| <= i < 12 + |group| + |segment| ==> f[i] == r[i - 12 - |group|];
  }

  lemma FileNameExample()
    ensures FileName("선크림", "20대 여성") == "03_segment_선크림_20대_여성.csv"
  {
    assert ReplaceAll("20대 여성", ' ', '_') == "20대_여성";
  }

  // ---------------------------------------------------------------------
  // The collection loops

  function SegmentNames(segs: seq<Segment>): (r: seq<string>)
    ensures |r| == |segs| && forall i :: 0 <= i < |segs| ==> r[i] == segs[i].name
  {
    seq(|segs|, i requires 0 <= i < |segs| => segs[i].name)
  }

  function GroupNames(groups: seq<KeywordGroup>): (r: seq<string>)
    ensures |r| == |groups| && forall k :: 0 <= k < |groups| ==> r[k] == groups[k].groupName
  {
    seq(|groups|, k requires 0 <= k < |groups| => groups[k].groupName)
  }

  /** The try block's outcome for every segment, in order. */
  function Outcomes(post: TrendPost, g: KeywordGroup, segs: seq<Segment>): (r: seq<Option<real>>)
    ensures |r| == |segs| && forall i :: 0 <= i < |segs| ==> r[i] == PairAverage(post, g, segs[i])
  {
    seq(|segs|, i requires 0 <= i < |segs| => PairAverage(post, g, segs[i]))
  }

  /** The recorded value of an outcome: 0 after an exception. */
  function OrZero(o: Option<real>): real
  {
    if o.Some? then o.value else 0.0
  }

  function OrZeros(os: seq<Option<real>>): (r: seq<real>)
    ensures |r| == |os| && forall i :: 0 <= i < |os| ==> r[i] == OrZero(os[i])
  {
    seq(|os|, i requires 0 <= i < |os| => OrZero(os[i]))
  }

  /** all_stats[keyword_name] after the inner loop. */
  function GroupRow(post: TrendPost, g: KeywordGroup, segs: seq<Segment>): seq<Entry>
  {
    Filled(SegmentNames(segs), OrZeros(Outcomes(post, g, segs)))
  }

  function Rows(post: TrendPost, groups: seq<KeywordGroup>, segs: seq<Segment>): (r: seq<seq<Entry>>)
    ensures |r| == |groups| && forall k :: 0 <= k < |groups| ==> r[k] == GroupRow(post, groups[k], segs)
  {
    seq(|groups|, k requires 0 <= k < |groups| => GroupRow(post, groups[k], segs))
  }

  /** all_stats after the outer loop. */
  function AllStats(post: TrendPost, groups: seq<KeywordGroup>, segs: seq<Segment>): map<string, seq<Entry>>
  {
    Nested(GroupNames(groups), Rows(post, groups, segs))
  }

  /** The files one group's inner loop writes, in order: one per segment
      whose average was computed. */
  function FilesOf(group: string, names: seq<string>, outcomes: seq<Option<real>>): (r: seq<string>)
    requires |outcomes| == |names|
  {
    if names == [] then []
    else
      var n := |names| - 1;
      FilesOf(group, names[..n], outcomes[..n]) + (if outcomes[n].Some? then [FileName(group, names[n])] else [])
  }

  /** One more pair of the inner loop. */
  lemma FilesStep(group: string, names: seq<string>, outcomes: seq<Option<real>>, j: nat)
    requires |outcomes| == |names| && j < |names|
    ensures FilesOf(group, names[..j + 1], outcomes[..j + 1])
      == FilesOf(group, names[..j], outcomes[..j]) + (if outcomes[j].Some? then [FileName(group, names[j])] else [])
  {
    assert names[..j + 1][..j] == names[..j] && outcomes[..j + 1][..j] == outcomes[..j];
  }

  function GroupFiles(post: TrendPost, g: KeywordGroup, segs: seq<Segment>): seq<string>
  {
    FilesOf(g.groupName, SegmentNames(segs), Outcomes(post, g, segs))
  }

  /** The files every group writes, group by group. */
  function Written(post: TrendPost, groups: seq<KeywordGroup>, segs: seq<Segment>): (r: seq<seq<string>>)
    ensures |r| == |groups| && forall k :: 0 <= k < |groups| ==> r[k] == GroupFiles(post, groups[k], segs)
  {
    seq(|groups|, k requires 0 <= k < |groups| => GroupFiles(post, groups[k], segs))
  }

  /** The pieces one after the other. */
  function AllFiles(post: TrendPost, groups: seq<KeywordGroup>, segs: seq<Segment>): seq<string>
  {
    Flatten(Written(post, groups, segs))
  }

  /** One group's inner loop over the segments. */
  method CollectGroup(post: TrendPost, g: KeywordGroup, segs: seq<Segment>)
    returns (row: seq<Entry>, files: seq<string>)
    ensures row == GroupRow(post, g, segs)
    ensures files == GroupFiles(post, g, segs)
  {
    ghost var names := SegmentNames(segs);
    ghost var outcomes := Outcomes(post, g, segs);
    ghost var values := OrZeros(outcomes);
    row := [];
    files := [];
    for j := 0 to |segs|
      invariant row == Filled(names[..j], values[..j])
      invariant files == FilesOf(g.groupName, names[..j], outcomes[..j])
    {
      var s := segs[j];
      var avg := CollectPair(post, g, s);
      assert avg == outcomes[j];
      var v := if avg.Some? then avg.value else 0.0;
      row := Assign(row, s.name, v);
      if avg.Some? {
        files := files + [FileName(g.groupName, s.name)];
      }
      FilledStep(names, values, j);
      FilesStep(g.groupName, names, outcomes, j);
    }
    assert names[..|segs|] == names && values[..|segs|] == values && outcomes[..|segs|] == outcomes;
  }

  /** collect_all_segments' collection loops: the statistics, the files
      written, and the progress counter, which ends at groups × segments. */
  method CollectAllSegments(post: TrendPost, groups: seq<KeywordGroup>, segs: seq<Segment>)
    returns (stats: map<string, seq<Entry>>, files: seq<string>, count: nat)
    ensures stats == AllStats(post, groups, segs)
    ensures files == AllFiles(post, groups, segs)
    ensures count == |groups| * |segs|
  {
    stats := map[];
    files := [];
    count := 0;
    ghost var keys := GroupNames(groups);
    ghost var rows := Rows(post, groups, segs);
    ghost var written := Written(post, groups, segs);
    for i := 0 to |groups|
      invariant stats == Nested(keys[..i], rows[..i])
      invariant files == Flatten(written[..i])
      invariant count == i * |segs|
    {
      var g := groups[i];
      var row, groupFiles := CollectGroup(post, g, segs);
      stats := stats[g.groupName := row];
      files := files + groupFiles;
      count := count + |segs|;
      MultiplyStep(i, |segs|);
      NestedStep(keys, rows, i);
      FlattenStep(written, i);
    }
    assert keys[..|groups|] == keys && rows[..|groups|] == rows && written[..|groups|] == written;
  }

  // ---------------------------------------------------------------------
  // What the collection produces

  predicate DistinctSegments(segs: seq<Segment>)
  {
    forall i, j :: 0 <= i < j < |segs| ==> segs[i].name != segs[j].name
  }

  predicate DistinctGroups(groups: seq<KeywordGroup>)
  {
    forall i, j :: 0 <= i < j < |groups| ==> groups[i].groupName != groups[j].groupName
  }

  /** With distinct segment names a keyword's dict holds one entry per
      segment, in segment order, with that pair's value. */
  lemma GroupRowInOrder(post: TrendPost, g: KeywordGroup, segs: seq<Segment>)
    requires DistinctSegments(segs)
    ensures Keys(GroupRow(post, g, segs)) == SegmentNames(segs)
    ensures forall i :: 0 <= i < |segs| ==> GroupRow(post, g, segs)[i] == Entry(segs[i].name, PairValue(post, g, segs[i]))
  {
    var values := OrZeros(Outcomes(post, g, segs));
    FilledInOrder(SegmentNames(segs), values);
    forall i | 0 <= i < |segs|
      ensures values[i] == PairValue(post, g, segs[i])
    {
    }
  }

  /** all_stats has one key per group, and with distinct group names each
      key holds its own group's dict. */
  lemma AllStatsAt(post: TrendPost, groups: seq<KeywordGroup>, segs: seq<Segment>, k: nat)
    requires DistinctGroups(groups) && k < |groups|
    ensures groups[k].groupName in AllStats(post, groups, segs)
    ensures AllStats(post, groups, segs)[groups[k].groupName] == GroupRow(post, groups[k], segs)
  {
    NestedAt(GroupNames(groups), Rows(post, groups, segs), k);
  }

  lemma AllStatsKeys(post: TrendPost, groups: seq<KeywordGroup>, segs: seq<Segment>, key: string)
    ensures key in AllStats(post, groups, segs) <==> exists k :: 0 <= k < |groups| && groups[k].groupName == key
  {
    var keys := GroupNames(groups);
    NestedKeys(keys, Rows(post, groups, segs), key);
    if key in keys {
      var k :| 0 <= k < |keys| && keys[k] == key;
    }
  }

  /** Every value all_stats holds is a dict over the segments (whether or
      not group names repeat). */
  lemma AllStatsRows(post: TrendPost, groups: seq<KeywordGroup>, segs: seq<Segment>, key: string)
    requires DistinctSegments(segs) && key in AllStats(post, groups, segs)
    ensures Keys(AllStats(post, groups, segs)[key]) == SegmentNames(segs)
  {
    var rows := Rows(post, groups, segs);
    NestedRows(GroupNames(groups), rows, key);
    var k :| 0 <= k < |rows| && AllStats(post, groups, segs)[key] == rows[k];
    GroupRowInOrder(post, groups[k], segs);
  }

  /** A group writes a file for each segment whose average was computed,
      and never more files than segments. */
  lemma {:induction false} FilesComplete(group: string, names: seq<string>, outcomes: seq<Option<real>>, i: nat)
    requires |outcomes| == |names| && i < |names|
    ensures |FilesOf(group, names, outcomes)| <= |names|
    ensures outcomes[i].Some? ==> FileName(group, names[i]) in FilesOf(group, names, outcomes)
  {
    var n := |names| - 1;
    if i < n {
      FilesComplete(group, names[..n], outcomes[..n], i);
    } else if n > 0 {
      FilesComplete(group, names[..n], outcomes[..n], 0);
    }
  }

  /** Every file written comes from a segment whose average was computed. */
  lemma {:induction false} FilesSound(group: string, names: seq<string>, outcomes: seq<Option<real>>, f: string)
    requires |outcomes| == |names| && f in FilesOf(group, names, outcomes)
    ensures exists i :: 0 <= i < |names| && outcomes[i].Some? && f == FileName(group, names[i])
  {
    var n := |names| - 1;
    if f in FilesOf(group, names[..n], outcomes[..n]) {
      FilesSound(group, names[..n], outcomes[..n], f);
      var i :| 0 <= i < n && outcomes[..n][i].Some? && f == FileName(group, names[..n][i]);
      assert outcomes[..n][i] == outcomes[i] && names[..n][i] == names[i];
    } else {
      assert outcomes[n].Some? && f == FileName(group, names[n]);
    }
  }

  /** In terms of the pairs: a pair's file is written exactly when its
      average was computed, up to pairs whose file names coincide. */
  lemma GroupFilesFacts(post: TrendPost, g: KeywordGroup, segs: seq<Segment>, i: nat, f: string)
    requires i < |segs|
    ensures |GroupFiles(post, g, segs)| <= |segs|
    ensures PairAverage(post, g, segs[i]).Some? ==> FileName(g.groupName, segs[i].name) in GroupFiles(post, g, segs)
    ensures f in GroupFiles(post, g, segs) ==>
      exists j :: 0 <= j < |segs| && PairAverage(post, g, segs[j]).Some? && f == FileName(g.groupName, segs[j].name)
  {
    var names := SegmentNames(segs);
    var outcomes := Outcomes(post, g, segs);
    FilesComplete(g.groupName, names, outcomes, i);
    if f in GroupFiles(post, g, segs) {
      FilesSound(g.groupName, names, outcomes, f);
      var j :| 0 <= j < |names| && outcomes[j].Some? && f == FileName(g.groupName, names[j]);
      assert PairAverage(post, g, segs[j]).Some? && f == FileName(g.groupName, segs[j].name);
    }
  }

  /** At most one file per request: groups × segments in all. */
  lemma AllFilesCount(post: TrendPost, groups: seq<KeywordGroup>, segs: seq<Segment>)
    ensures |AllFiles(post, groups, segs)| <= |groups| * |segs|
  {
    var written := Written(post, groups, segs);
    forall k | 0 <= k < |groups|
      ensures |written[k]| <= |segs|
    {
      if segs != [] {
        FilesComplete(groups[k].groupName, SegmentNames(segs), Outcomes(post, groups[k], segs), 0);
      }
    }
    FlattenLength(written, |segs|);
  }

  /** The six segment names differ: they differ in the decade digit or in
      the gender syllable. */
  lemma SegmentsDistinct()
    ensures |SEGMENTS| == 6 && DistinctSegments(SEGMENTS)
  {
    var names := SegmentNames(SEGMENTS);
    assert forall i :: 0 <= i < 6 ==> |names[i]| == 6;
    assert names[0][0] == names[3][0] == '2' && names[1][0] == names[4][0] == '3' && names[2][0] == names[5][0] == '4';
    assert names[0][4] == names[1][4] == names[2][4] == '여' && names[3][4] == names[4][4] == names[5][4] == '남';
  }

  /** The four group names differ, suncream first and then the sports. */
  lemma GroupsDistinct()
    ensures |KEYWORD_GROUPS| == 4 && DistinctGroups(KEYWORD_GROUPS)
    ensures KEYWORD_GROUPS[0].groupName == SUNCREAM
    ensures forall k :: 0 <= k < 3 ==> KEYWORD_GROUPS[k + 1].groupName == SPORTS[k]
  {
    var gs := GroupNames(KEYWORD_GROUPS);
    assert |gs[0]| == 3 && |gs[1]| == 3 && |gs[2]| == 2 && |gs[3]| == 5;
    assert gs[0][0] == '선' && gs[1][0] == '스';
  }

  /** Six segments and four groups with distinct names: 24 requests. */
  lemma ConstantsDistinct()
    ensures |SEGMENTS| == 6 && |KEYWORD_GROUPS| == 4 && |KEYWORD_GROUPS| * |SEGMENTS| == 24
    ensures DistinctSegments(SEGMENTS) && DistinctGroups(KEYWORD_GROUPS)
    ensures KEYWORD_GROUPS[0].groupName == SUNCREAM
    ensures forall k :: 0 <= k < 3 ==> KEYWORD_GROUPS[k + 1].groupName == SPORTS[k]
  {
    SegmentsDistinct();
    GroupsDistinct();
  }

  // ---------------------------------------------------------------------
  // The analysis printed from all_stats

  /** What the sport analysis needs of the stats: at least one segment,
      distinct segment names, the suncream and sport keys, and every dict
      keyed by the segments in order. */
  predicate SportsReady(stats: map<string, seq<Entry>>, names: seq<string>)
  {
    |names| > 0
    && (forall i, j :: 0 <= i < j < |names| ==> names[i] != names[j])
    && SUNCREAM in stats
    && (forall k :: 0 <= k < |SPORTS| ==> SPORTS[k] in stats)
    && (forall key :: key in stats ==> Keys(stats[key]) == names)
  }

  /** ... and every group's key. */
  predicate Ready(stats: map<string, seq<Entry>>, groupNames: seq<string>, names: seq<string>)
  {
    SportsReady(stats, names) && forall k :: 0 <= k < |groupNames| ==> groupNames[k] in stats
  }

  /** max(stats.items(), key=lambda x: x[1]): the first entry holding the
      largest value. */
  function TopIndex(d: seq<Entry>): (i: nat)
    requires d != []
    ensures i < |d|
    ensures forall j :: 0 <= j < |d| ==> d[j].value <= d[i].value
    ensures forall j :: 0 <= j < i ==> d[j].value < d[i].value
  {
    if |d| == 1 then 0
    else
      var n := |d| - 1;
      var prev := TopIndex(d[..n]);
      if d[n].value > d[prev].value then n else prev
  }

  /** The top entry's value is the largest of the dict's values. */
  lemma TopIsMaximum(d: seq<Entry>)
    requires d != []
    ensures d[TopIndex(d)].value == MaxOf(Values(d))
  {
    var m := MaxOf(Values(d));
    var i :| 0 <= i < |d| && Values(d)[i] == m;
  }

  /** [stats.get(name, 0) for name in segment_names] */
  function MatrixRow(d: seq<Entry>, names: seq<string>): (r: seq<real>)
    ensures |r| == |names| && forall i :: 0 <= i < |names| ==> r[i] == GetOr(d, names[i], 0.0)
  {
    seq(|names|, i requires 0 <= i < |names| => GetOr(d, names[i], 0.0))
  }

  /** A line of the cross table: suncream value, whether it is above the
      suncream mean (the arrow), the three sport values and the flags. */
  datatype CrossRow = CrossRow(segment: string, suncream: real, aboveMean: bool, sports: seq<real>, flags: string)

  function CrossRowOf(name: string, sc: real, scAvg: real, sp: seq<real>, maxes: seq<real>): CrossRow
    requires |sp| == 3 && |maxes| == 3
  {
    CrossRow(name, sc, sc > scAvg, sp, FlagsText(TableFlags(sc, scAvg, sp, maxes)))
  }

  datatype Report = Report(
    rankings: seq<seq<RankedEntry>>,
    matrix: seq<seq<real>>,
    tops: seq<Entry>,
    suncreamAverage: real,
    cross: seq<CrossRow>,
    views: seq<SportView>)

  /** The values of a dict keyed by the segments, in segment order. */
  function SegmentValues(stats: map<string, seq<Entry>>, key: string, names: seq<string>): (r: seq<real>)
    requires key in stats && Keys(stats[key]) == names
    ensures |r| == |names|
  {
    Values(stats[key])
  }

  /** The suncream values in segment order. */
  function SuncreamValues(stats: map<string, seq<Entry>>, names: seq<string>): (r: seq<real>)
    requires SportsReady(stats, names)
    ensures |r| == |names| > 0
  {
    SegmentValues(stats, SUNCREAM, names)
  }

  /** Each sport against suncream, in the order ski resort, ski, snowboard. */
  function Views(stats: map<string, seq<Entry>>, names: seq<string>): (r: seq<SportView>)
    requires SportsReady(stats, names)
    ensures |r| == 3
  {
    var sc := SuncreamValues(stats, names);
    seq(3, k requires 0 <= k < 3 => ViewOf(SPORTS[k], names, sc, Mean(sc), SegmentValues(stats, SPORTS[k], names)))
  }

  function ReportOf(stats: map<string, seq<Entry>>, groupNames: seq<string>, names: seq<string>): Report
    requires Ready(stats, groupNames, names)
  {
    var sc := SuncreamValues(stats, names);
    var scAvg := Mean(sc);
    var sp := seq(3, k requires 0 <= k < 3 => SegmentValues(stats, SPORTS[k], names));
    var maxes := seq(3, k requires 0 <= k < 3 => MaxOf(sp[k]));
    Report(
      seq(|groupNames|, k requires 0 <= k < |groupNames| => Ranked(stats[groupNames[k]])),
      seq(|groupNames|, k requires 0 <= k < |groupNames| => MatrixRow(stats[groupNames[k]], names)),
      seq(|groupNames|, k requires 0 <= k < |groupNames| =>
        var d := stats[groupNames[k]]; d[TopIndex(d)]),
      scAvg,
      seq(|names|, i requires 0 <= i < |names| => CrossRowOf(names[i], sc[i], scAvg, [sp[0][i], sp[1][i], sp[2][i]], maxes)),
      Views(stats, names))
  }

  /** The loop over the three sports: listing, then quadrants. */
  method SportViews(stats: map<string, seq<Entry>>, names: seq<string>) returns (views: seq<SportView>)
    requires SportsReady(stats, names)
    ensures views == Views(stats, names)
  {
    var sc := Values(stats[SUNCREAM]);
    var scAvg := Sum(sc) / (|sc| as real);
    views := [];
    for k := 0 to 3
      invariant |views| == k
      invariant forall m :: 0 <= m < k ==> views[m] == ViewOf(SPORTS[m], names, sc, scAvg, Values(stats[SPORTS[m]]))
    {
      var v, found := BuildView(SPORTS[k], names, sc, scAvg, Values(stats[SPORTS[k]]));
      views := views + [v];
    }
  }

  /** The collected statistics of the script's own groups and segments
      are always ready for the analysis. */
  lemma CollectedReady(post: TrendPost)
    ensures Ready(AllStats(post, KEYWORD_GROUPS, SEGMENTS), GroupNames(KEYWORD_GROUPS), SegmentNames(SEGMENTS))
  {
    ConstantsDistinct();
    var stats := AllStats(post, KEYWORD_GROUPS, SEGMENTS);
    forall k | 0 <= k < 4
      ensures KEYWORD_GROUPS[k].groupName in stats
    {
      AllStatsAt(post, KEYWORD_GROUPS, SEGMENTS, k);
    }
    forall key | key in stats
      ensures Keys(stats[key]) == SegmentNames(SEGMENTS)
    {
      AllStatsRows(post, KEYWORD_GROUPS, SEGMENTS, key);
    }
  }

  /** pandas' mean of the pair's column is NaN: the request succeeds, the
      table converts and has the first keyword's column, and that column has
      no rows (its response's first result has no data points). */
  predicate PairIsNaN(post: TrendPost, g: KeywordGroup, s: Segment)
  {
    var r := SearchTrend(post, SegmentArgs(g.keywords, s));
    SegmentAverage(r, g.keywords).Some? && |r.value[0].data| == 0
  }

  /** A NaN pair is one whose column is empty; all_stats holds NaN for it,
      which the model's mean writes as 0. */
  lemma PairIsNaNFacts(post: TrendPost, g: KeywordGroup, s: Segment)
    ensures var r := SearchTrend(post, SegmentArgs(g.keywords, s));
      PairIsNaN(post, g, s) <==>
        PairAverage(post, g, s).Some? && LastWithTitle(r.value, g.keywords[0]) == Some([])
    ensures PairIsNaN(post, g, s) ==> PairValue(post, g, s) == 0.0
  {
    var r := SearchTrend(post, SegmentArgs(g.keywords, s));
    if PairAverage(post, g, s).Some? {
      FrameShape(r.value);
      FrameColumns(r.value);
      var f := FrameOf(r.value).value;
      var v := LastWithTitle(r.value, g.keywords[0]).value;
      assert Lookup(f.columns, g.keywords[0]) == Some(v);
      LookupLength(f.columns, g.keywords[0], |f.dates|);
    }
  }

  /** Some pair of the script's groups and segments is NaN. */
  predicate SomePairIsNaN(post: TrendPost)
  {
    exists k, i :: 0 <= k < 4 && 0 <= i < 6 && PairIsNaN(post, KEYWORD_GROUPS[k], SEGMENTS[i])
  }

  /** The analysis of what collect_all_segments gathered. The summary's bar
      `int(avg_val / 2)` raises on a NaN average outside any try block, so
      the script stops before the matrix and there is no report. */
  function CollectedReport(post: TrendPost): (r: Option<Report>)
    ensures r.None? <==> SomePairIsNaN(post)
  {
    CollectedReady(post);
    if SomePairIsNaN(post) then None
    else Some(ReportOf(AllStats(post, KEYWORD_GROUPS, SEGMENTS), GroupNames(KEYWORD_GROUPS), SegmentNames(SEGMENTS)))
  }

  /** A pair whose first result has no data points stops the script. */
  lemma EmptyPairAborts(post: TrendPost, k: nat, i: nat)
    requires k < 4 && i < 6
    requires var r := SearchTrend(post, SegmentArgs(KEYWORD_GROUPS[k].keywords, SEGMENTS[i]));
      PairAverage(post, KEYWORD_GROUPS[k], SEGMENTS[i]).Some? && LastWithTitle(r.value, KEYWORD_GROUPS[k].keywords[0]) == Some([])
    ensures CollectedReport(post).None?
  {
    PairIsNaNFacts(post, KEYWORD_GROUPS[k], SEGMENTS[i]);
  }

  /** Each cell of the matrix is that pair's average, or 0 when its
      request failed. */
  lemma MatrixCells(post: TrendPost, k: nat, i: nat)
    requires k < 4 && i < 6
    ensures CollectedReport(post).Some? ==>
      CollectedReport(post).value.matrix[k][i] == PairValue(post, KEYWORD_GROUPS[k], SEGMENTS[i])
  {
    CollectedReady(post);
    ConstantsDistinct();
    AllStatsAt(post, KEYWORD_GROUPS, SEGMENTS, k);
    var d := GroupRow(post, KEYWORD_GROUPS[k], SEGMENTS);
    GroupRowInOrder(post, KEYWORD_GROUPS[k], SEGMENTS);
    GetAt(d, i);
  }

  /** The suncream baseline is the mean of the six suncream pair values. */
  lemma SuncreamBaseline(post: TrendPost)
    ensures CollectedReport(post).Some? ==>
      CollectedReport(post).value.suncreamAverage == Mean(OrZeros(Outcomes(post, KEYWORD_GROUPS[0], SEGMENTS)))
  {
    CollectedReady(post);
    ConstantsDistinct();
    AllStatsAt(post, KEYWORD_GROUPS, SEGMENTS, 0);
    GroupRowInOrder(post, KEYWORD_GROUPS[0], SEGMENTS);
    assert Values(GroupRow(post, KEYWORD_GROUPS[0], SEGMENTS)) == OrZeros(Outcomes(post, KEYWORD_GROUPS[0], SEGMENTS));
  }

  /** A cross-table line shows "-" exactly when it raises no flag, and a
      sport's label appears exactly when the segment is above 0.8 of the
      sport's maximum with suncream below its mean. */
  lemma CrossFlags(stats: map<string, seq<Entry>>, groupNames: seq<string>, names: seq<string>, i: nat)
    requires Ready(stats, groupNames, names) && i < |names|
    ensures var r := ReportOf(stats, groupNames, names);
      var row := r.cross[i];
      (row.flags == "-" <==> forall k :: 0 <= k < 3 ==> !Flagged(row.suncream, r.suncreamAverage, row.sports[k], r.views[k].maximum))
  {
    var r := ReportOf(stats, groupNames, names);
    var sc := SuncreamValues(stats, names);
    var sp := seq(3, k requires 0 <= k < 3 => SegmentValues(stats, SPORTS[k], names));
    var maxes := seq(3, k requires 0 <= k < 3 => MaxOf(sp[k]));
    assert r.cross[i] == CrossRowOf(names[i], sc[i], r.suncreamAverage, [sp[0][i], sp[1][i], sp[2][i]], maxes);
    assert forall k :: 0 <= k < 3 ==> r.views[k].maximum == maxes[k];
    CrossRowFlags(names[i], sc[i], r.suncreamAverage, [sp[0][i], sp[1][i], sp[2][i]], maxes);
  }

  /** One line of the cross table shows "-" exactly when no sport flags it. */
  lemma CrossRowFlags(name: string, sc: real, scAvg: real, sp: seq<real>, maxes: seq<real>)
    requires |sp| == 3 && |maxes| == 3
    ensures CrossRowOf(name, sc, scAvg, sp, maxes).flags == "-"
      <==> forall k :: 0 <= k < 3 ==> !Flagged(sc, scAvg, sp[k], maxes[k])
  {
    DashIffNoFlags(sc, scAvg, sp, maxes);
    TableFlagsFacts(sc, scAvg, sp, maxes);
  }
}
