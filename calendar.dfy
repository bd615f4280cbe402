// Proleptic Gregorian calendar facts used by the scripts: Python's
// calendar.monthrange, datetime validity, and the season labels.
module Calendar {
  import opened Wrappers
  import opened Text

  datatype Date = Date(year: int, month: int, day: int)

  predicate IsLeapYear(y: int)
  {
    y % 4 == 0 && (y % 100 != 0 || y % 400 == 0)
  }

  /** calendar.monthrange(y, m)[1] for 1 <= m <= 12. */
  function DaysInMonth(y: int, m: int): (n: int)
    requires 1 <= m <= 12
    ensures 28 <= n <= 31
    ensures m == 2 ==> (n == 29 <==> IsLeapYear(y))
    ensures m in {4, 6, 9, 11} ==> n == 30
    ensures m in {1, 3, 5, 7, 8, 10, 12} ==> n == 31
  {
    if m == 2 then (if IsLeapYear(y) then 29 else 28)
    else if m == 4 || m == 6 || m == 9 || m == 11 then 30
    else 31
  }

  /** A date Python's datetime accepts (years 1..9999). */
  predicate ValidDate(d: Date)
  {
    1 <= d.year <= 9999 && 1 <= d.month <= 12 && 1 <= d.day <= DaysInMonth(d.year, d.month)
  }

  /** date.strftime('%Y%m%d'): year zero-padded to 4 digits, month and day to 2. */
  function CompactDate(d: Date): (r: string)
    requires ValidDate(d)
    ensures |r| == 8 && AllDigits(r)
  {
    ZeroPadWidth(d.year, 4);
    ZeroPadWidth(d.month, 2);
    ZeroPadWidth(d.day, 2);
    ZeroPad(d.year, 4) + ZeroPad(d.month, 2) + ZeroPad(d.day, 2)
  }

  /** Parsing with the fixed pattern %Y%m%d: eight digits naming a real day. */
  function ParseCompactDate(s: string): (r: Option<Date>)
    ensures r.Some? ==> ValidDate(r.value)
  {
    if |s| == 8 && AllDigits(s) then
      var d := Date(DigitsValue(s[..4]), DigitsValue(s[4..6]), DigitsValue(s[6..]));
      if ValidDate(d) then Some(d) else None
    else None
  }

  /** Formatting a date and parsing it back gives the same date. */
  lemma CompactDateRoundTrip(d: Date)
    requires ValidDate(d)
    ensures ParseCompactDate(CompactDate(d)) == Some(d)
  {
    var s := CompactDate(d);
    ZeroPadWidth(d.year, 4);
    ZeroPadWidth(d.month, 2);
    ZeroPadWidth(d.day, 2);
    assert s[..4] == ZeroPad(d.year, 4);
    assert s[4..6] == ZeroPad(d.month, 2);
    assert s[6..] == ZeroPad(d.day, 2);
  }

  datatype Season = Winter | Summer | Other

  /** The season label: 12, 1, 2 are 겨울 (winter), 6, 7, 8 are 여름 (summer), the rest 기타. */
  function SeasonOf(month: int): (s: Season)
    ensures s == Winter <==> month in {12, 1, 2}
    ensures s == Summer <==> month in {6, 7, 8}
    ensures s == Other <==> month !in {12, 1, 2, 6, 7, 8}
  {
    if month == 12 || month == 1 || month == 2 then Winter
    else if month == 6 || month == 7 || month == 8 then Summer
    else Other
  }

  /** The Korean label the scripts write into the `season` column. */
  function SeasonLabel(s: Season): string
  {
    match s
    case Winter => "겨울"
    case Summer => "여름"
    case Other => "기타"
  }
}
