// The weather-service half of the UV dataset script: parsing the UV
// observation text, the noon timestamp of a daily query, the monthly
// aggregate over every day of a month, the inclusive month enumeration and
// the one-record-per-month table.
module UvDataset {
  import opened Wrappers
  import opened Text
  import opened Stats
  import opened Calendar

  // ---------------------------------------------------------------------
  // parse_kma_uv_response

  /** float() on a field: the number it denotes, or None where Python raises. */
  type FloatParse = string -> Option<real>

  /** A comment or separator line (after stripping), or a blank one. */
  predicate Skipped(line: string)
  {
    var l := Strip(line);
    l == [] || l[0] == '#' || l[0] == '|' || l[0] == '-'
  }

  /** What one line contributes: the UV-B index in field 5 of a data line
      with at least 7 fields, when it parses and is not negative. */
  function LineValue(line: string, parseFloat: FloatParse): (r: Option<real>)
    ensures Skipped(line) ==> r.None?
    ensures !Skipped(line) && |Fields(Strip(line))| < 7 ==> r.None?
    ensures r.Some? ==> r.value >= 0.0 && parseFloat(Fields(Strip(line))[5]) == Some(r.value)
    ensures (!Skipped(line) && |Fields(Strip(line))| >= 7 && parseFloat(Fields(Strip(line))[5]).Some?
             && parseFloat(Fields(Strip(line))[5]).value >= 0.0) ==> r.Some?
  {
    if Skipped(line) then None
    else
      var parts := Fields(Strip(line));
      if |parts| < 7 then None
      else
        match parseFloat(parts[5])
        case Some(v) => if v >= 0.0 then Some(v) else None
        case None => None
  }

  /** The kept values of the lines, in line order. */
  function ValuesOf(lines: seq<string>, parseFloat: FloatParse): (r: seq<real>)
    ensures |r| <= |lines|
    ensures forall i :: 0 <= i < |r| ==> r[i] >= 0.0
  {
    if lines == [] then []
    else
      var prev := ValuesOf(lines[..|lines| - 1], parseFloat);
      match LineValue(lines[|lines| - 1], parseFloat)
      case Some(v) => prev + [v]
      case None => prev
  }

  /** text.strip().split('\n') */
  function LinesOf(text: string): seq<string>
  {
    Split(Strip(text), '\n')
  }

  datatype UvStats = UvStats(avg: real, max: real, min: real, count: nat)

  /** The summary of the kept values, None when there are none. */
  function Summarize(values: seq<real>): (r: Option<UvStats>)
    ensures r.None? <==> values == []
    ensures r.Some? ==> r.value.count == |values| && r.value.avg == Mean(values)
                        && r.value.max == MaxOf(values) && r.value.min == MinOf(values)
  {
    if values == [] then None
    else Some(UvStats(Mean(values), MaxOf(values), MinOf(values), |values|))
  }

  function ParseUv(text: string, parseFloat: FloatParse): Option<UvStats>
  {
    Summarize(ValuesOf(LinesOf(text), parseFloat))
  }

  /** The body of the parser's loop for one line. */
  method ReadLine(text: string, parseFloat: FloatParse) returns (v: Option<real>)
    ensures v == LineValue(text, parseFloat)
  {
    var line := Strip(text);
    if line == [] || line[0] == '#' || line[0] == '|' || line[0] == '-' {
      return None;
    }
    var parts := Fields(line);
    v := None;
    if |parts| >= 7 {
      var parsed := parseFloat(parts[5]);
      if parsed.Some? && parsed.value >= 0.0 {
        v := parsed;
      }
    }
  }

  lemma ValuesStep(lines: seq<string>, i: nat, parseFloat: FloatParse)
    requires i < |lines|
    ensures var v := LineValue(lines[i], parseFloat);
      ValuesOf(lines[..i + 1], parseFloat) == ValuesOf(lines[..i], parseFloat) + (if v.Some? then [v.value] else [])
  {
    assert lines[..i + 1][..i] == lines[..i];
  }

  method ParseKmaUvResponse(text: string, parseFloat: FloatParse) returns (r: Option<UvStats>)
    ensures r == ParseUv(text, parseFloat)
  {
    var lines := LinesOf(text);
    var values: seq<real> := [];
    var i := 0;
    while i < |lines|
      invariant 0 <= i <= |lines|
      invariant values == ValuesOf(lines[..i], parseFloat)
    {
      var v := ReadLine(lines[i], parseFloat);
      ValuesStep(lines, i, parseFloat);
      if v.Some? {
        values := values + [v.value];
      }
      i := i + 1;
    }
    assert lines[..|lines|] == lines;
    r := SummaryOf(values);
  }

  /** The dictionary returned for the kept values: sum/len, max, min, len. */
  method SummaryOf(values: seq<real>) returns (r: Option<UvStats>)
    ensures r == Summarize(values)
  {
    if |values| > 0 {
      r := Some(UvStats(Sum(values) / (|values| as real), MaxOf(values), MinOf(values), |values|));
    } else {
      r := None;
    }
  }

  /** The values of consecutive blocks of lines are consecutive. */
  lemma {:induction false} ValuesOfConcat(a: seq<string>, b: seq<string>, parseFloat: FloatParse)
    ensures ValuesOf(a + b, parseFloat) == ValuesOf(a, parseFloat) + ValuesOf(b, parseFloat)
  {
    if b != [] {
      var b' := b[..|b| - 1];
      assert (a + b)[..|a + b| - 1] == a + b';
      ValuesOfConcat(a, b', parseFloat);
    } else {
      assert a + b == a;
    }
  }

  /** A line that contributes nothing (blank, comment, separator, too few
      fields, unparsable or negative) can be removed without changing the
      kept values; any other line adds exactly its value at its place. */
  lemma LineContribution(a: seq<string>, line: string, b: seq<string>, parseFloat: FloatParse)
    ensures LineValue(line, parseFloat).None? ==>
      ValuesOf(a + [line] + b, parseFloat) == ValuesOf(a + b, parseFloat)
    ensures LineValue(line, parseFloat).Some? ==>
      ValuesOf(a + [line] + b, parseFloat) == ValuesOf(a, parseFloat) + [LineValue(line, parseFloat).value] + ValuesOf(b, parseFloat)
  {
    ValuesOfConcat(a + [line], b, parseFloat);
    ValuesOfConcat(a, [line], parseFloat);
    ValuesOfConcat(a, b, parseFloat);
    assert [line][..0] == [];
  }

  /** The number of lines that contribute a value. */
  function Contributing(lines: seq<string>, parseFloat: FloatParse): nat
  {
    if lines == [] then 0
    else Contributing(lines[..|lines| - 1], parseFloat)
         + (if LineValue(lines[|lines| - 1], parseFloat).Some? then 1 else 0)
  }

  lemma {:induction false} ValuesCount(lines: seq<string>, parseFloat: FloatParse)
    ensures |ValuesOf(lines, parseFloat)| == Contributing(lines, parseFloat)
  {
    if lines != [] {
      ValuesCount(lines[..|lines| - 1], parseFloat);
    }
  }

  /** The parse gives None exactly when no line contributes; otherwise
      `count` is the number of contributing lines and
      0 <= uvb_min <= uvb_avg <= uvb_max. */
  lemma ParseUvSummary(text: string, parseFloat: FloatParse)
    ensures ParseUv(text, parseFloat).None? <==> Contributing(LinesOf(text), parseFloat) == 0
    ensures ParseUv(text, parseFloat).Some? ==>
      var s := ParseUv(text, parseFloat).value;
      s.count == Contributing(LinesOf(text), parseFloat) && 0.0 <= s.min <= s.avg <= s.max
  {
    var values := ValuesOf(LinesOf(text), parseFloat);
    ValuesCount(LinesOf(text), parseFloat);
    if values != [] {
      MeanBetween(values);
    }
  }

  // ---------------------------------------------------------------------
  // get_kma_uv_daily

  /** The `tm` parameter: %Y%m%d followed by the zero-padded hour and minute. */
  function Timestamp(d: Date, hour: nat, minute: nat): (r: string)
    requires ValidDate(d)
    ensures |r| >= 12 && r[..8] == CompactDate(d) && AllDigits(r)
  {
    var r := CompactDate(d) + ZeroPad(hour, 2) + ZeroPad(minute, 2);
    assert r[..8] == CompactDate(d);
    r
  }

  /** An hour and a minute below 100 give exactly 12 characters. */
  lemma TimestampLength(d: Date, hour: nat, minute: nat)
    requires ValidDate(d) && hour < 100 && minute < 100
    ensures |Timestamp(d, hour, minute)| == 12
  {
    ZeroPadWidth(hour, 2);
    ZeroPadWidth(minute, 2);
  }

  /** The noon query of a day is 12 digits ending in "1200", and the day,
      hour and minute can be read back from it. */
  lemma NoonTimestamp(d: Date)
    requires ValidDate(d)
    ensures |Timestamp(d, 12, 0)| == 12 && Timestamp(d, 12, 0)[8..] == "1200"
    ensures ParseCompactDate(Timestamp(d, 12, 0)[..8]) == Some(d)
  {
    CompactDateRoundTrip(d);
    TimestampLength(d, 12, 0);
    var t := Timestamp(d, 12, 0);
    assert ZeroPad(12, 2) == "12" by {
      assert Decimal(12) == Decimal(1) + [DigitChar(2)];
    }
    assert ZeroPad(0, 2) == "00" by {
      assert Decimal(0) == "0";
      assert ZeroPad(0, 2) == Zeros(1) + "0";
    }
    assert t[8..] == ZeroPad(12, 2) + ZeroPad(0, 2);
  }

  /** The UV service: the response text for a `tm` value, or None when the
      request fails or the status is not 2xx. */
  type UvFetch = string -> Option<string>

  /** get_kma_uv_daily at noon: every failure becomes None. */
  function DailyUv(fetch: UvFetch, parseFloat: FloatParse, d: Date): Option<UvStats>
    requires ValidDate(d)
  {
    match fetch(Timestamp(d, 12, 0))
    case Some(text) => ParseUv(text, parseFloat)
    case None => None
  }

  // ---------------------------------------------------------------------
  // get_kma_uv_monthly

  datatype MonthlyUv = MonthlyUv(avg: real, max: real, min: real, days: nat, totalDays: nat)

  /** A year Python's datetime accepts. */
  predicate ValidYear(y: int) { 1 <= y <= 9999 }

  /** What the queries of days 1..n returned, day 1 first. */
  function DayResults(fetch: UvFetch, parseFloat: FloatParse, year: int, month: int, n: nat): (r: seq<Option<UvStats>>)
    requires ValidYear(year) && 1 <= month <= 12 && n <= DaysInMonth(year, month)
    ensures |r| == n
  {
    if n == 0 then [] else DayResults(fetch, parseFloat, year, month, n - 1) + [DailyUv(fetch, parseFloat, Date(year, month, n))]
  }

  /** The `uvb_avg` of each day that returned data, in day order. */
  function KeptAverages(results: seq<Option<UvStats>>): (r: seq<real>)
    ensures |r| <= |results|
  {
    if results == [] then []
    else
      var prev := KeptAverages(results[..|results| - 1]);
      match results[|results| - 1]
      case Some(s) => prev + [s.avg]
      case None => prev
  }

  function MonthlyOf(fetch: UvFetch, parseFloat: FloatParse, year: int, month: int): (r: Option<MonthlyUv>)
    requires ValidYear(year) && 1 <= month <= 12
    ensures r.Some? ==> r.value.totalDays == DaysInMonth(year, month) && r.value.days >= 1
  {
    var values := KeptAverages(DayResults(fetch, parseFloat, year, month, DaysInMonth(year, month)));
    if values == [] then None
    else Some(MonthlyUv(Mean(values), MaxOf(values), MinOf(values), |values|, DaysInMonth(year, month)))
  }

  /** The noon queries of days 1..n, in order. */
  function Queries(year: int, month: int, n: nat): (r: seq<string>)
    requires ValidYear(year) && 1 <= month <= 12 && n <= DaysInMonth(year, month)
    ensures |r| == n
  {
    if n == 0 then [] else Queries(year, month, n - 1) + [Timestamp(Date(year, month, n), 12, 0)]
  }

  /** One query per day of the month, in day order. */
  method KmaUvMonthly(fetch: UvFetch, parseFloat: FloatParse, year: int, month: int)
    returns (r: Option<MonthlyUv>, queried: seq<string>)
    requires ValidYear(year) && 1 <= month <= 12
    ensures r == MonthlyOf(fetch, parseFloat, year, month)
    ensures queried == Queries(year, month, DaysInMonth(year, month))
    ensures |queried| == DaysInMonth(year, month)
  {
    var lastDay := DaysInMonth(year, month);
    var daily: seq<real> := [];
    queried := [];
    var day := 1;
    while day <= lastDay
      invariant 1 <= day <= lastDay + 1
      invariant daily == KeptAverages(DayResults(fetch, parseFloat, year, month, day - 1))
      invariant queried == Queries(year, month, day - 1)
    {
      var ts := Timestamp(Date(year, month, day), 12, 0);
      queried := queried + [ts];
      var data := DailyUv(fetch, parseFloat, Date(year, month, day));
      assert DayResults(fetch, parseFloat, year, month, day)[..day - 1] == DayResults(fetch, parseFloat, year, month, day - 1);
      if data.Some? {
        daily := daily + [data.value.avg];
      }
      day := day + 1;
    }
    r := MonthlySummaryOf(daily, lastDay);
  }

  /** The dictionary returned for the kept daily averages. */
  method MonthlySummaryOf(daily: seq<real>, lastDay: nat) returns (r: Option<MonthlyUv>)
    ensures daily == [] ==> r == None
    ensures daily != [] ==> r == Some(MonthlyUv(Mean(daily), MaxOf(daily), MinOf(daily), |daily|, lastDay))
  {
    if |daily| > 0 {
      r := Some(MonthlyUv(Sum(daily) / (|daily| as real), MaxOf(daily), MinOf(daily), |daily|, lastDay));
    } else {
      r := None;
    }
  }

  /** A day's average is never negative. */
  lemma DailyUvNonNegative(fetch: UvFetch, parseFloat: FloatParse, d: Date)
    requires ValidDate(d)
    ensures DailyUv(fetch, parseFloat, d).Some? ==> DailyUv(fetch, parseFloat, d).value.avg >= 0.0
  {
    if DailyUv(fetch, parseFloat, d).Some? {
      ParseUvSummary(fetch(Timestamp(d, 12, 0)).value, parseFloat);
    }
  }

  /** Every kept average is one a day reported. */
  lemma {:induction false} KeptAveragesFrom(results: seq<Option<UvStats>>, lo: real)
    requires forall i :: 0 <= i < |results| && results[i].Some? ==> results[i].value.avg >= lo
    ensures forall i :: 0 <= i < |KeptAverages(results)| ==> KeptAverages(results)[i] >= lo
  {
    if results != [] {
      KeptAveragesFrom(results[..|results| - 1], lo);
    }
  }

  /** Nothing is kept exactly when every day failed. */
  lemma {:induction false} KeptAveragesEmpty(results: seq<Option<UvStats>>)
    ensures KeptAverages(results) == [] <==> forall i :: 0 <= i < |results| ==> results[i].None?
  {
    if results != [] {
      var prefix := results[..|results| - 1];
      KeptAveragesEmpty(prefix);
      assert forall i :: 0 <= i < |prefix| ==> prefix[i] == results[i];
    }
  }

  /** No day among 1..n returned data. */
  predicate NoDayHasData(fetch: UvFetch, parseFloat: FloatParse, year: int, month: int, n: nat)
    requires ValidYear(year) && 1 <= month <= 12 && n <= DaysInMonth(year, month)
  {
    forall day :: 1 <= day <= n ==> DailyUv(fetch, parseFloat, Date(year, month, day)).None?
  }

  /** The i-th result is the answer for day i + 1, and none is negative. */
  lemma {:induction false} DayResultsAt(fetch: UvFetch, parseFloat: FloatParse, year: int, month: int, n: nat)
    requires ValidYear(year) && 1 <= month <= 12 && n <= DaysInMonth(year, month)
    ensures forall i :: 0 <= i < n ==> DayResults(fetch, parseFloat, year, month, n)[i] == DailyUv(fetch, parseFloat, Date(year, month, i + 1))
  {
    if n > 0 {
      DayResultsAt(fetch, parseFloat, year, month, n - 1);
    }
  }

  /** On success 1 <= days <= total_days, total_days is the length of the
      month and 0 <= min <= avg <= max; None exactly when no day succeeded. */
  lemma MonthlySummary(fetch: UvFetch, parseFloat: FloatParse, year: int, month: int)
    requires ValidYear(year) && 1 <= month <= 12
    ensures MonthlyOf(fetch, parseFloat, year, month).None? <==> NoDayHasData(fetch, parseFloat, year, month, DaysInMonth(year, month))
    ensures MonthlyOf(fetch, parseFloat, year, month).Some? ==>
      var m := MonthlyOf(fetch, parseFloat, year, month).value;
      1 <= m.days <= m.totalDays && m.totalDays == DaysInMonth(year, month)
      && 0.0 <= m.min <= m.avg <= m.max
  {
    var n := DaysInMonth(year, month);
    var results := DayResults(fetch, parseFloat, year, month, n);
    var values := KeptAverages(results);
    DayResultsAt(fetch, parseFloat, year, month, n);
    forall i | 0 <= i < n && results[i].Some? ensures results[i].value.avg >= 0.0 {
      DailyUvNonNegative(fetch, parseFloat, Date(year, month, i + 1));
    }
    KeptAveragesFrom(results, 0.0);
    KeptAveragesEmpty(results);
    if NoDayHasData(fetch, parseFloat, year, month, n) {
      forall i | 0 <= i < n ensures results[i].None? {
        assert results[i] == DailyUv(fetch, parseFloat, Date(year, month, i + 1));
      }
    } else {
      var day :| 1 <= day <= n && DailyUv(fetch, parseFloat, Date(year, month, day)).Some?;
      assert results[day - 1].Some?;
    }
    if values != [] {
      MeanBetween(values);
      assert values[0] >= 0.0;
    }
  }

  /** A leap February is queried 29 times, a common one 28 times. */
  lemma FebruaryQueries()
    ensures |Queries(2024, 2, DaysInMonth(2024, 2))| == 29
    ensures |Queries(2023, 2, DaysInMonth(2023, 2))| == 28
  {
    assert IsLeapYear(2024) && !IsLeapYear(2023);
  }

  // ---------------------------------------------------------------------
  // The month enumeration of collect_kma_uv_monthly_avg

  datatype YearMonth = YearMonth(year: int, month: int)

  /** Months counted from year 0, January. */
  function MonthIndex(ym: YearMonth): int
  {
    ym.year * 12 + ym.month - 1
  }

  function FromIndex(k: int): (ym: YearMonth)
    ensures 1 <= ym.month <= 12 && MonthIndex(ym) == k
  {
    YearMonth(k / 12, k % 12 + 1)
  }

  /** A month in 1..12 is recovered from its index. */
  lemma FromMonthIndex(ym: YearMonth)
    requires 1 <= ym.month <= 12
    ensures FromIndex(MonthIndex(ym)) == ym
  {
    var k := MonthIndex(ym);
    assert k == ym.year * 12 + (ym.month - 1) && 0 <= ym.month - 1 < 12;
    assert k / 12 == ym.year;
  }

  /** The index of the last month the loop condition admits. */
  function LastIndex(endYear: int, endMonth: int): int
  {
    endYear * 12 + (if endMonth < 0 then 0 else if endMonth > 12 then 12 else endMonth) - 1
  }

  function MonthCount(startYear: int, startMonth: int, endYear: int, endMonth: int): nat
  {
    var n := LastIndex(endYear, endMonth) - MonthIndex(YearMonth(startYear, startMonth)) + 1;
    if n < 0 then 0 else n
  }

  /** Every (year, month) from the start to the end inclusive. */
  function MonthsBetween(startYear: int, startMonth: int, endYear: int, endMonth: int): (r: seq<YearMonth>)
    ensures |r| == MonthCount(startYear, startMonth, endYear, endMonth)
  {
    var first := MonthIndex(YearMonth(startYear, startMonth));
    seq(MonthCount(startYear, startMonth, endYear, endMonth), i => FromIndex(first + i))
  }

  /** The i-th month enumerated is i months after the first. */
  lemma MonthsBetweenIndex(startYear: int, startMonth: int, endYear: int, endMonth: int, i: nat)
    requires i < |MonthsBetween(startYear, startMonth, endYear, endMonth)|
    ensures MonthIndex(MonthsBetween(startYear, startMonth, endYear, endMonth)[i]) == MonthIndex(YearMonth(startYear, startMonth)) + i
  {
    var first := MonthIndex(YearMonth(startYear, startMonth));
    var ym := FromIndex(first + i);
    assert MonthsBetween(startYear, startMonth, endYear, endMonth)[i] == ym;
  }

  /** The loop condition on a month in 1..12. */
  lemma AdmittedIffAtMostLast(ym: YearMonth, endYear: int, endMonth: int)
    requires 1 <= ym.month <= 12
    ensures (ym.year < endYear || (ym.year == endYear && ym.month <= endMonth))
            <==> MonthIndex(ym) <= LastIndex(endYear, endMonth)
  {
  }

  method MonthRange(startYear: int, startMonth: int, endYear: int, endMonth: int)
    returns (months: seq<YearMonth>)
    requires 1 <= startMonth <= 12
    ensures months == MonthsBetween(startYear, startMonth, endYear, endMonth)
  {
    months := [];
    var currentYear := startYear;
    var currentMonth := startMonth;
    var first := MonthIndex(YearMonth(startYear, startMonth));
    AdmittedIffAtMostLast(YearMonth(currentYear, currentMonth), endYear, endMonth);
    while currentYear < endYear || (currentYear == endYear && currentMonth <= endMonth)
      invariant 1 <= currentMonth <= 12
      invariant MonthIndex(YearMonth(currentYear, currentMonth)) == first + |months|
      invariant |months| <= MonthCount(startYear, startMonth, endYear, endMonth)
      invariant (currentYear < endYear || (currentYear == endYear && currentMonth <= endMonth))
                <==> |months| < MonthCount(startYear, startMonth, endYear, endMonth)
      invariant forall i :: 0 <= i < |months| ==> months[i] == FromIndex(first + i)
      decreases LastIndex(endYear, endMonth) - MonthIndex(YearMonth(currentYear, currentMonth))
    {
      months := months + [YearMonth(currentYear, currentMonth)];
      if currentMonth == 12 {
        currentYear := currentYear + 1;
        currentMonth := 1;
      } else {
        currentMonth := currentMonth + 1;
      }
      AdmittedIffAtMostLast(YearMonth(currentYear, currentMonth), endYear, endMonth);
    }
  }

  /** The enumeration is in chronological order, without gaps, every month
      in 1..12, starting at the start month and ending at the end month. */
  lemma MonthsInOrder(startYear: int, startMonth: int, endYear: int, endMonth: int)
    requires 1 <= startMonth <= 12
    ensures var ms := MonthsBetween(startYear, startMonth, endYear, endMonth);
      && (forall i :: 0 <= i < |ms| ==> 1 <= ms[i].month <= 12)
      && (forall i :: 0 <= i < |ms| - 1 ==> MonthIndex(ms[i + 1]) == MonthIndex(ms[i]) + 1)
      && (|ms| > 0 ==> ms[0] == YearMonth(startYear, startMonth))
      && (|ms| > 0 && 1 <= endMonth <= 12 ==> ms[|ms| - 1] == YearMonth(endYear, endMonth))
  {
    var ms := MonthsBetween(startYear, startMonth, endYear, endMonth);
    var first := MonthIndex(YearMonth(startYear, startMonth));
    assert forall i :: 0 <= i < |ms| ==> ms[i] == FromIndex(first + i);
    if |ms| > 0 {
      FromMonthIndex(YearMonth(startYear, startMonth));
      assert ms[0] == FromIndex(first);
      if 1 <= endMonth <= 12 {
        FromMonthIndex(YearMonth(endYear, endMonth));
        assert ms[|ms| - 1] == FromIndex(LastIndex(endYear, endMonth));
      }
    }
  }

  /** From a start month to a valid end month not before it there are
      12·(ey−sy)+(em−sm)+1 months; a start after the end gives none. */
  lemma MonthCountFormula(startYear: int, startMonth: int, endYear: int, endMonth: int)
    requires 1 <= startMonth <= 12 && 1 <= endMonth <= 12
    ensures (startYear, startMonth) == (endYear, endMonth) || startYear < endYear || (startYear == endYear && startMonth < endMonth)
      ==> |MonthsBetween(startYear, startMonth, endYear, endMonth)| == 12 * (endYear - startYear) + (endMonth - startMonth) + 1
    ensures startYear > endYear || (startYear == endYear && startMonth > endMonth)
      ==> MonthsBetween(startYear, startMonth, endYear, endMonth) == []
  {
  }

  /** February 2020 to February 2025 is 61 months. */
  lemma SixtyOneMonths()
    ensures |MonthsBetween(2020, 2, 2025, 2)| == 61
  {
    MonthCountFormula(2020, 2, 2025, 2);
  }

  // ---------------------------------------------------------------------
  // One record per month

  /** A row of the weather table; absent aggregates are None. */
  datatype UvRecord = UvRecord(
    date: Date, year: int, month: int,
    avg: Option<real>, max: Option<real>, min: Option<real>,
    days: nat, totalDays: nat, coverage: real, apiSuccess: bool)

  function RecordOf(ym: YearMonth, data: Option<MonthlyUv>): UvRecord
    requires ValidYear(ym.year) && 1 <= ym.month <= 12
    requires data.Some? ==> data.value.totalDays > 0
  {
    var date := Date(ym.year, ym.month, 1);
    match data
    case Some(m) =>
      UvRecord(date, ym.year, ym.month, Some(m.avg), Some(m.max), Some(m.min), m.days, m.totalDays,
               (m.days as real) / (m.totalDays as real) * 100.0, true)
    case None =>
      UvRecord(date, ym.year, ym.month, None, None, None, 0, DaysInMonth(ym.year, ym.month), 0.0, false)
  }

  /** The record of one month, from that month's aggregate. */
  function MonthRecord(fetch: UvFetch, parseFloat: FloatParse, ym: YearMonth): UvRecord
    requires ValidYear(ym.year) && 1 <= ym.month <= 12
  {
    RecordOf(ym, MonthlyOf(fetch, parseFloat, ym.year, ym.month))
  }

  predicate YearsValid(months: seq<YearMonth>)
  {
    forall i :: 0 <= i < |months| ==> ValidYear(months[i].year) && 1 <= months[i].month <= 12
  }

  /** The table: the record of each month, in month order. */
  function Records(fetch: UvFetch, parseFloat: FloatParse, months: seq<YearMonth>): (r: seq<UvRecord>)
    requires YearsValid(months)
    ensures |r| == |months| && forall i :: 0 <= i < |months| ==> r[i] == MonthRecord(fetch, parseFloat, months[i])
  {
    seq(|months|, i requires 0 <= i < |months| => MonthRecord(fetch, parseFloat, months[i]))
  }

  lemma RecordsStep(fetch: UvFetch, parseFloat: FloatParse, months: seq<YearMonth>, i: nat)
    requires YearsValid(months) && i < |months|
    ensures YearsValid(months[..i]) && YearsValid(months[..i + 1])
    ensures Records(fetch, parseFloat, months[..i + 1])
      == Records(fetch, parseFloat, months[..i]) + [MonthRecord(fetch, parseFloat, months[i])]
  {
    var longer := Records(fetch, parseFloat, months[..i + 1]);
    var shorter := Records(fetch, parseFloat, months[..i]) + [MonthRecord(fetch, parseFloat, months[i])];
    forall j | 0 <= j < i + 1
      ensures longer[j] == shorter[j]
    {
      assert months[..i + 1][j] == months[j];
      if j < i {
        assert months[..i][j] == months[j];
      }
    }
  }

  /** collect_kma_uv_monthly_avg: enumerate the months, then one record each. */
  method CollectKmaUvMonthlyAvg(fetch: UvFetch, parseFloat: FloatParse,
                                startYear: int, startMonth: int, endYear: int, endMonth: int)
    returns (records: seq<UvRecord>)
    requires 1 <= startMonth <= 12
    requires YearsValid(MonthsBetween(startYear, startMonth, endYear, endMonth))
    ensures records == Records(fetch, parseFloat, MonthsBetween(startYear, startMonth, endYear, endMonth))
  {
    var months := MonthRange(startYear, startMonth, endYear, endMonth);
    records := [];
    var i := 0;
    while i < |months|
      invariant 0 <= i <= |months|
      invariant records == Records(fetch, parseFloat, months[..i])
    {
      var data, _ := KmaUvMonthly(fetch, parseFloat, months[i].year, months[i].month);
      RecordsStep(fetch, parseFloat, months, i);
      records := records + [RecordOf(months[i], data)];
      i := i + 1;
    }
    assert months[..|months|] == months;
  }

  /** Each record describes its own month: a success carries the aggregates
      and coverage = days / total_days · 100 in (0, 100]; a failure has no
      aggregates, 0 days, coverage 0 and total_days the length of the month. */
  lemma RecordFacts(fetch: UvFetch, parseFloat: FloatParse, ym: YearMonth)
    requires ValidYear(ym.year) && 1 <= ym.month <= 12
    ensures var r := RecordOf(ym, MonthlyOf(fetch, parseFloat, ym.year, ym.month));
      && r.date == Date(ym.year, ym.month, 1) && r.year == ym.year && r.month == ym.month
      && r.totalDays == DaysInMonth(ym.year, ym.month)
      && (r.apiSuccess <==> MonthlyOf(fetch, parseFloat, ym.year, ym.month).Some?)
      && (r.apiSuccess ==>
            var m := MonthlyOf(fetch, parseFloat, ym.year, ym.month).value;
            r.avg == Some(m.avg) && r.max == Some(m.max) && r.min == Some(m.min) && r.days == m.days
            && 1 <= r.days && 0.0 <= m.min <= m.avg <= m.max
            && r.coverage == (r.days as real) / (r.totalDays as real) * 100.0
            && 0.0 < r.coverage <= 100.0)
      && (!r.apiSuccess ==> r.avg.None? && r.max.None? && r.min.None? && r.days == 0 && r.coverage == 0.0)
  {
    MonthlySummary(fetch, parseFloat, ym.year, ym.month);
    var m := MonthlyOf(fetch, parseFloat, ym.year, ym.month);
    if m.Some? {
      var d := m.value.days as real;
      var t := m.value.totalDays as real;
      CoverageBounds(d, t);
    }
  }

  lemma CoverageBounds(d: real, t: real)
    requires 1.0 <= d <= t
    ensures 0.0 < d / t * 100.0 <= 100.0
  {
    assert d / t <= 1.0;
  }
}
