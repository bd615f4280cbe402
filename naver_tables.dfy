// to_dataframe of the shopping and blog clients: the item list becomes a
// table (one row per item, one column per field name seen in any item),
// prices are cast to int, text fields are tag-stripped and blog post dates
// are parsed.
module NaverSearchTables {
  import opened Wrappers
  import opened Text
  import opened Calendar
  import opened NaverMarkup

  /** One element of `items`: field name to the text the API sent. */
  type Item = map<string, string>

  /** A table cell; Missing is the NaN (or NaT) pandas puts where an item
      lacks a field that another item has. */
  datatype Cell = Str(text: string) | Int(value: int) | Day(date: Date) | Missing

  type Row = map<string, Cell>

  /** A missing column raises KeyError; a cell that cannot be cast or
      stripped raises ValueError or TypeError. */
  datatype TableError = MissingColumn(name: string) | NotAnInteger(column: string)
                      | NotAString(column: string) | NotADate(column: string)

  /** The columns of pd.DataFrame(items): every field name of every item. */
  function ColumnsOf(items: seq<Item>): (cols: set<string>)
    ensures forall i, k :: 0 <= i < |items| && k in items[i] ==> k in cols
    ensures forall k :: k in cols ==> exists i :: 0 <= i < |items| && k in items[i]
  {
    if items == [] then {}
    else
      var cols := ColumnsOf(items[..|items| - 1]) + items[|items| - 1].Keys;
      assert forall i :: 0 <= i < |items| - 1 ==> items[..|items| - 1][i] == items[i];
      cols
  }

  const INT64_MIN: int := -0x8000_0000_0000_0000
  const INT64_MAX: int := 0x7FFF_FFFF_FFFF_FFFF

  /** int(text): a decimal integer with an optional sign. */
  function ParseDecimal(s: string): Option<int>
  {
    if |s| >= 2 && (s[0] == '-' || s[0] == '+') && AllDigits(s[1..]) then
      Some(if s[0] == '-' then -(DigitsValue(s[1..]) as int) else DigitsValue(s[1..]) as int)
    else if |s| >= 1 && AllDigits(s) then Some(DigitsValue(s) as int)
    else None
  }

  /** astype(int) on one text cell: int(text), which must also fit in 64
      bits (a larger value raises OverflowError). */
  function ParseInt(s: string): (r: Option<int>)
    ensures r.Some? ==> INT64_MIN <= r.value <= INT64_MAX
  {
    var v := ParseDecimal(s);
    if v.Some? && INT64_MIN <= v.value <= INT64_MAX then v else None
  }

  /** A minus sign before digits reads as the negated digits. */
  lemma ParseSigned(digits: string)
    requires |digits| >= 1 && AllDigits(digits)
    ensures ParseDecimal(['-'] + digits) == Some(-(DigitsValue(digits) as int))
  {
    assert (['-'] + digits)[1..] == digits;
  }

  lemma ParseUnsigned(digits: string)
    requires |digits| >= 1 && AllDigits(digits)
    ensures ParseDecimal(digits) == Some(DigitsValue(digits) as int)
  {
    // The first character is a digit, so no sign is read.
    assert IsDigit(digits[0]);
  }

  lemma ParseNegative(m: nat)
    ensures ParseDecimal(['-'] + Decimal(m)) == Some(-(m as int))
  {
    ParseSigned(Decimal(m));
    DecimalValue(m);
  }

  lemma ParseNatural(m: nat)
    ensures ParseDecimal(Decimal(m)) == Some(m)
  {
    ParseUnsigned(Decimal(m));
    DecimalValue(m);
  }

  lemma DecimalTextReads(n: int)
    ensures ParseDecimal(IntText(n)) == Some(n)
  {
    if n < 0 {
      assert IntText(n) == ['-'] + Decimal(-n);
      ParseNegative(-n);
    } else {
      ParseNatural(n);
    }
  }

  /** A 64-bit number written with str() is read back as that number. */
  lemma ParseIntRoundTrip(n: int)
    requires INT64_MIN <= n <= INT64_MAX
    ensures ParseInt(IntText(n)) == Some(n)
  {
    DecimalTextReads(n);
  }

  /** A number outside the 64-bit range does not cast: astype(int) raises. */
  lemma ParseIntOverflow(n: int)
    requires n < INT64_MIN || INT64_MAX < n
    ensures ParseInt(IntText(n)) == None
  {
    DecimalTextReads(n);
  }

  /** astype(int) succeeds on a column only if every item has a number there. */
  predicate CastsToInt(items: seq<Item>, col: string)
  {
    forall i :: 0 <= i < |items| ==> col in items[i] && ParseInt(items[i][col]).Some?
  }

  /** re.sub on a column succeeds only if every item has text there. */
  predicate AllHaveText(items: seq<Item>, col: string)
  {
    forall i :: 0 <= i < |items| ==> col in items[i]
  }

  function PassThrough(item: Item, k: string): Cell
  {
    if k in item then Str(item[k]) else Missing
  }

  // ---------------------------------------------------------------------
  // Shopping

  function ProductRow(item: Item, cols: set<string>): Row
    requires "lprice" in item && ParseInt(item["lprice"]).Some? && "title" in item
    requires "hprice" in cols ==> "hprice" in item && ParseInt(item["hprice"]).Some?
  {
    map k | k in cols ::
      if k == "lprice" || k == "hprice" then Int(ParseInt(item[k]).value)
      else if k == "title" then Str(StripTags(item[k]))
      else PassThrough(item, k)
  }

  /** NaverShopping.to_dataframe: lprice always cast, hprice only when that
      column exists, titles stripped; the first failing step raises. */
  function ProductsToTable(items: seq<Item>): Result<seq<Row>, TableError>
  {
    var cols := ColumnsOf(items);
    if "lprice" !in cols then Err(MissingColumn("lprice"))
    else if !CastsToInt(items, "lprice") then Err(NotAnInteger("lprice"))
    else if "hprice" in cols && !CastsToInt(items, "hprice") then Err(NotAnInteger("hprice"))
    else if "title" !in cols then Err(MissingColumn("title"))
    else if !AllHaveText(items, "title") then Err(NotAString("title"))
    else Ok(seq(|items|, i requires 0 <= i < |items| => ProductRow(items[i], cols)))
  }

  /** The table exists exactly when every item has a title and a numeric
      lprice (and a numeric hprice if any item has one); then each row holds
      the item's prices as integers, its title without tags, and its other
      fields unchanged. A non-numeric price raises: it never becomes 0. */
  lemma ProductsTable(items: seq<Item>)
    ensures ProductsToTable(items).Ok? <==>
      |items| > 0 && CastsToInt(items, "lprice") && AllHaveText(items, "title")
      && ("hprice" in ColumnsOf(items) ==> CastsToInt(items, "hprice"))
  {
    var cols := ColumnsOf(items);
    var ok := |items| > 0 && CastsToInt(items, "lprice") && AllHaveText(items, "title")
      && ("hprice" in cols ==> CastsToInt(items, "hprice"));
    if ok {
      assert "lprice" in items[0] && "title" in items[0];
      assert "lprice" in cols && "title" in cols;
    } else if "lprice" in cols {
      var i :| 0 <= i < |items| && "lprice" in items[i];
    }
  }

  /** The rows of a successful conversion. */
  lemma ProductsRows(items: seq<Item>)
    ensures ProductsToTable(items).Ok? ==>
      var rows := ProductsToTable(items).value;
      |rows| == |items|
      && forall i :: 0 <= i < |items| ==>
        && rows[i].Keys == ColumnsOf(items)
        && rows[i]["lprice"] == Int(ParseInt(items[i]["lprice"]).value)
        && ("hprice" in ColumnsOf(items) ==> rows[i]["hprice"] == Int(ParseInt(items[i]["hprice"]).value))
        && rows[i]["title"] == Str(StripTags(items[i]["title"]))
        && TagFree(rows[i]["title"].text)
        && (forall k :: k in items[i] && k !in {"lprice", "hprice", "title"} ==> rows[i][k] == Str(items[i][k]))
  {
    if ProductsToTable(items).Ok? {
      var cols := ColumnsOf(items);
      forall i | 0 <= i < |items|
        ensures var row := ProductsToTable(items).value[i];
          && row.Keys == cols
          && row["lprice"] == Int(ParseInt(items[i]["lprice"]).value)
          && ("hprice" in cols ==> row["hprice"] == Int(ParseInt(items[i]["hprice"]).value))
          && row["title"] == Str(StripTags(items[i]["title"])) && TagFree(row["title"].text)
          && (forall k :: k in items[i] && k !in {"lprice", "hprice", "title"} ==> row[k] == Str(items[i][k]))
      {
        assert items[i].Keys <= cols;
        ProductRowFacts(items[i], cols);
      }
    }
  }

  /** One row: both prices cast, the title stripped, other fields kept. */
  lemma ProductRowFacts(item: Item, cols: set<string>)
    requires "lprice" in item && ParseInt(item["lprice"]).Some? && "title" in item
    requires "hprice" in cols ==> "hprice" in item && ParseInt(item["hprice"]).Some?
    requires "lprice" in cols && "title" in cols && item.Keys <= cols
    ensures var row := ProductRow(item, cols);
      && row.Keys == cols
      && row["lprice"] == Int(ParseInt(item["lprice"]).value)
      && ("hprice" in cols ==> row["hprice"] == Int(ParseInt(item["hprice"]).value))
      && row["title"] == Str(StripTags(item["title"])) && TagFree(row["title"].text)
      && (forall k :: k in item && k !in {"lprice", "hprice", "title"} ==> row[k] == Str(item[k]))
  {
    StripLeavesNoTag(item["title"]);
  }

  // ---------------------------------------------------------------------
  // Blog

  /** pd.to_datetime(..., format='%Y%m%d'): a missing value becomes NaT,
      any other value must parse. */
  predicate DatesParse(items: seq<Item>, col: string)
  {
    forall i :: 0 <= i < |items| && col in items[i] ==> ParseCompactDate(items[i][col]).Some?
  }

  function BlogRow(item: Item, cols: set<string>): Row
    requires "title" in item && "description" in item
    requires "postdate" in item ==> ParseCompactDate(item["postdate"]).Some?
  {
    map k | k in cols ::
      if k == "title" || k == "description" then Str(StripTags(item[k]))
      else if k == "postdate" then (if k in item then Day(ParseCompactDate(item[k]).value) else Missing)
      else PassThrough(item, k)
  }

  /** NaverBlog.to_dataframe: titles and descriptions stripped, postdate parsed. */
  function BlogsToTable(items: seq<Item>): Result<seq<Row>, TableError>
  {
    var cols := ColumnsOf(items);
    if "title" !in cols then Err(MissingColumn("title"))
    else if !AllHaveText(items, "title") then Err(NotAString("title"))
    else if "description" !in cols then Err(MissingColumn("description"))
    else if !AllHaveText(items, "description") then Err(NotAString("description"))
    else if "postdate" !in cols then Err(MissingColumn("postdate"))
    else if !DatesParse(items, "postdate") then Err(NotADate("postdate"))
    else Ok(seq(|items|, i requires 0 <= i < |items| => BlogRow(items[i], cols)))
  }

  /** The table exists exactly when every item has a title and a description,
      some item has a postdate, and every postdate given is an 8-digit date;
      then titles and descriptions are tag-free and each postdate is the day
      its digits name. */
  lemma BlogsTable(items: seq<Item>)
    ensures BlogsToTable(items).Ok? <==>
      |items| > 0 && AllHaveText(items, "title") && AllHaveText(items, "description")
      && "postdate" in ColumnsOf(items) && DatesParse(items, "postdate")
    ensures BlogsToTable(items).Ok? ==>
      var rows := BlogsToTable(items).value;
      |rows| == |items|
      && forall i :: 0 <= i < |items| ==>
        && rows[i].Keys == ColumnsOf(items)
        && rows[i]["title"] == Str(StripTags(items[i]["title"])) && TagFree(rows[i]["title"].text)
        && rows[i]["description"] == Str(StripTags(items[i]["description"])) && TagFree(rows[i]["description"].text)
        && ("postdate" in items[i] ==> rows[i]["postdate"] == Day(ParseCompactDate(items[i]["postdate"]).value))
        && ("postdate" !in items[i] ==> rows[i]["postdate"] == Missing)
  {
    if |items| > 0 && AllHaveText(items, "title") {
      assert "title" in items[0];
    }
    if BlogsToTable(items).Ok? {
      var cols := ColumnsOf(items);
      forall i | 0 <= i < |items|
        ensures var row := BlogsToTable(items).value[i];
          && row.Keys == cols
          && row["title"] == Str(StripTags(items[i]["title"])) && TagFree(row["title"].text)
          && row["description"] == Str(StripTags(items[i]["description"])) && TagFree(row["description"].text)
          && ("postdate" in items[i] ==> row["postdate"] == Day(ParseCompactDate(items[i]["postdate"]).value))
          && ("postdate" !in items[i] ==> row["postdate"] == Missing)
      {
        BlogRowFacts(items[i], cols);
      }
    }
  }

  /** One row: its titles and descriptions stripped, its postdate parsed. */
  lemma BlogRowFacts(item: Item, cols: set<string>)
    requires "title" in item && "description" in item
    requires "postdate" in item ==> ParseCompactDate(item["postdate"]).Some?
    requires "title" in cols && "description" in cols && "postdate" in cols
    ensures var row := BlogRow(item, cols);
      && row.Keys == cols
      && row["title"] == Str(StripTags(item["title"])) && TagFree(row["title"].text)
      && row["description"] == Str(StripTags(item["description"])) && TagFree(row["description"].text)
      && ("postdate" in item ==> row["postdate"] == Day(ParseCompactDate(item["postdate"]).value))
      && ("postdate" !in item ==> row["postdate"] == Missing)
  {
    StripLeavesNoTag(item["title"]);
    StripLeavesNoTag(item["description"]);
  }

  /** A post dated with strftime('%Y%m%d') is read back as that day. */
  lemma BlogPostdateRoundTrip(items: seq<Item>, i: nat, d: Date)
    requires BlogsToTable(items).Ok? && i < |items|
    requires ValidDate(d) && "postdate" in items[i] && items[i]["postdate"] == CompactDate(d)
    ensures BlogsToTable(items).value[i]["postdate"] == Day(d)
  {
    CompactDateRoundTrip(d);
    BlogsTable(items);
  }

  // ---------------------------------------------------------------------
  // Price coercion: a missing or non-numeric price reads as 0

  /** A price that is missing or not a number counts as 0. */
  function PriceOrZero(item: Item, col: string): int
  {
    if col in item && ParseInt(item[col]).Some? then ParseInt(item[col]).value else 0
  }

  function CoercedProductRow(item: Item, cols: set<string>): Row
    requires "title" in item
  {
    map k | k in cols ::
      if k == "lprice" || k == "hprice" then Int(PriceOrZero(item, k))
      else if k == "title" then Str(StripTags(item[k]))
      else PassThrough(item, k)
  }

  /** to_dataframe with prices coerced to 0 instead of raising. */
  function ProductsToTableCoerced(items: seq<Item>): Result<seq<Row>, TableError>
  {
    var cols := ColumnsOf(items);
    if "lprice" !in cols then Err(MissingColumn("lprice"))
    else if "title" !in cols then Err(MissingColumn("title"))
    else if !AllHaveText(items, "title") then Err(NotAString("title"))
    else Ok(seq(|items|, i requires 0 <= i < |items| => CoercedProductRow(items[i], cols)))
  }

  /** Where both prices cast, the coerced row is the cast row. */
  lemma CoercedRowAgrees(item: Item, cols: set<string>)
    requires "lprice" in item && ParseInt(item["lprice"]).Some? && "title" in item
    requires "hprice" in cols ==> "hprice" in item && ParseInt(item["hprice"]).Some?
    ensures CoercedProductRow(item, cols) == ProductRow(item, cols)
  {
  }

  /** With coercion no price can make the conversion fail. */
  lemma CoercionNeverFailsOnPrice(items: seq<Item>)
    ensures ProductsToTableCoerced(items).Ok? <==>
      "lprice" in ColumnsOf(items) && |items| > 0 && AllHaveText(items, "title")
  {
    if |items| > 0 && AllHaveText(items, "title") {
      assert "title" in items[0];
    }
  }

  /** Wherever the casting version succeeds the two tables are equal. */
  lemma CoercionAgrees(items: seq<Item>)
    requires ProductsToTable(items).Ok?
    ensures ProductsToTableCoerced(items) == ProductsToTable(items)
  {
    var cols := ColumnsOf(items);
    var a := seq(|items|, i requires 0 <= i < |items| => CoercedProductRow(items[i], cols));
    var b := seq(|items|, i requires 0 <= i < |items| => ProductRow(items[i], cols));
    forall i | 0 <= i < |items| ensures a[i] == b[i] {
      CoercedRowAgrees(items[i], cols);
    }
    assert a == b;
  }

  /** An item whose hprice is the empty string: casting raises, coercion gives 0. */
  lemma EmptyHpriceRaises()
    ensures var items := [map["title" := "a", "lprice" := "1000", "hprice" := ""]];
      && ProductsToTable(items) == Err(NotAnInteger("hprice"))
      && ProductsToTableCoerced(items).Ok?
      && ProductsToTableCoerced(items).value[0]["hprice"] == Int(0)
      && ProductsToTableCoerced(items).value[0]["lprice"] == Int(1000)
  {
    var item: Item := map["title" := "a", "lprice" := "1000", "hprice" := ""];
    var items := [item];
    assert ParseInt("") == None;
    assert "1000" == ['1', '0', '0', '0'];
    assert DigitsValue("1000") == 1000 by {
      assert "1000"[..3] == "100" && "100"[..2] == "10" && "10"[..1] == "1" && "1"[..0] == "";
    }
    assert ParseInt("1000") == Some(1000);
    assert items[0]["hprice"] == "";
    assert !CastsToInt(items, "hprice");
    assert "hprice" in ColumnsOf(items);
    assert CastsToInt(items, "lprice");
  }
}
