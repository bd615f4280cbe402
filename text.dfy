// The handful of Python str operations the scripts use, on seq<char>:
// replace, strip, split, startswith and integer formatting.
module Text {

  /** s.replace(c, ""): every occurrence of c deleted, the rest kept in order. */
  function RemoveAll(s: string, c: char): (r: string)
    ensures c !in r
    ensures |r| <= |s|
    ensures forall d :: d != c ==> multiset(r)[d] == multiset(s)[d]
  {
    if s == [] then []
    else if s[0] == c then
      assert s == [s[0]] + s[1..];
      RemoveAll(s[1..], c)
    else
      assert s == [s[0]] + s[1..];
      [s[0]] + RemoveAll(s[1..], c)
  }

  lemma {:induction false} RemoveAllConcat(a: string, b: string, c: char)
    ensures RemoveAll(a + b, c) == RemoveAll(a, c) + RemoveAll(b, c)
  {
    if a != [] {
      assert (a + b)[1..] == a[1..] + b;
      RemoveAllConcat(a[1..], b, c);
    } else {
      assert a + b == b;
    }
  }

  lemma {:induction false} RemoveAllAbsent(s: string, c: char)
    requires c !in s
    ensures RemoveAll(s, c) == s
  {
    if s != [] {
      RemoveAllAbsent(s[1..], c);
    }
  }

  /** s.replace(c, d) for single characters. */
  function ReplaceAll(s: string, c: char, d: char): (r: string)
    ensures |r| == |s|
    ensures forall i :: 0 <= i < |s| ==> r[i] == (if s[i] == c then d else s[i])
  {
    if s == [] then [] else [if s[0] == c then d else s[0]] + ReplaceAll(s[1..], c, d)
  }

  predicate IsDigit(c: char) { '0' <= c <= '9' }

  predicate AllDigits(s: string) { forall i :: 0 <= i < |s| ==> IsDigit(s[i]) }

  function DigitChar(n: nat): (c: char)
    requires n < 10
    ensures IsDigit(c)
  {
    ('0' as int + n) as char
  }

  function DigitValue(c: char): (n: nat)
    requires IsDigit(c)
    ensures n < 10 && DigitChar(n) == c
  {
    (c as int - '0' as int) as nat
  }

  /** str(n) for a natural number: its decimal digits, no leading zeros. */
  function Decimal(n: nat): (r: string)
    ensures |r| >= 1 && AllDigits(r)
    ensures n < 10 <==> |r| == 1
  {
    if n < 10 then [DigitChar(n)] else Decimal(n / 10) + [DigitChar(n % 10)]
  }

  /** Value of a string of decimal digits. */
  function DigitsValue(s: string): nat
    requires AllDigits(s)
  {
    if s == [] then 0 else DigitsValue(s[..|s| - 1]) * 10 + DigitValue(s[|s| - 1])
  }

  lemma {:induction false} DecimalValue(n: nat)
    ensures DigitsValue(Decimal(n)) == n
  {
    if n >= 10 {
      var r := Decimal(n);
      assert r[..|r| - 1] == Decimal(n / 10);
      DecimalValue(n / 10);
    }
  }

  lemma {:induction false} DecimalLength(n: nat, k: nat)
    requires k >= 1
    requires Pow10(k - 1) <= n < Pow10(k) || (k == 1 && n < 10)
    ensures |Decimal(n)| == k
  {
    if n >= 10 {
      assert k >= 2;
      DecimalLength(n / 10, k - 1);
    }
  }

  function Pow10(k: nat): nat { if k == 0 then 1 else 10 * Pow10(k - 1) }

  /** f"{n}" for a Python int: a minus sign, then the digits. */
  function IntText(i: int): string
  {
    if i < 0 then "-" + Decimal(-i) else Decimal(i)
  }

  function Zeros(k: nat): (r: string)
    ensures |r| == k && AllDigits(r)
  {
    if k == 0 then [] else ['0'] + Zeros(k - 1)
  }

  lemma {:induction false} LeadingZero(s: string)
    requires AllDigits(s)
    ensures AllDigits(['0'] + s) && DigitsValue(['0'] + s) == DigitsValue(s)
  {
    if s != [] {
      var t := ['0'] + s;
      assert t[..|t| - 1] == ['0'] + s[..|s| - 1];
      LeadingZero(s[..|s| - 1]);
    } else {
      assert (['0'] + s)[..0] == [];
    }
  }

  lemma {:induction false} LeadingZeros(k: nat, s: string)
    requires AllDigits(s)
    ensures AllDigits(Zeros(k) + s) && DigitsValue(Zeros(k) + s) == DigitsValue(s)
  {
    if k > 0 {
      LeadingZeros(k - 1, s);
      assert Zeros(k) + s == ['0'] + (Zeros(k - 1) + s);
      LeadingZero(Zeros(k - 1) + s);
    } else {
      assert Zeros(k) + s == s;
    }
  }

  /** f"{n:0<w>d}" for n >= 0: the digits, left-padded with '0' to width w. */
  function ZeroPad(n: nat, width: nat): (r: string)
    ensures AllDigits(r) && DigitsValue(r) == n
    ensures |r| == if |Decimal(n)| >= width then |Decimal(n)| else width
  {
    var d := Decimal(n);
    DecimalValue(n);
    if |d| >= width then d
    else
      LeadingZeros(width - |d|, d);
      Zeros(width - |d|) + d
  }

  /** Below 10^w the padded text is exactly w digits wide. */
  lemma ZeroPadWidth(n: nat, width: nat)
    requires width >= 1 && n < Pow10(width)
    ensures |ZeroPad(n, width)| == width
  {
    DecimalAtMost(n, width);
  }

  lemma {:induction false} DecimalAtMost(n: nat, width: nat)
    requires width >= 1 && n < Pow10(width)
    ensures |Decimal(n)| <= width
  {
    if n >= 10 {
      assert width >= 2;
      DecimalAtMost(n / 10, width - 1);
    }
  }

  /** The characters Python's str.split() and str.strip() treat as whitespace. */
  predicate IsSpace(c: char)
  {
    c == ' ' || ('\U{0009}' <= c <= '\U{000D}') || ('\U{001C}' <= c <= '\U{001F}')
    || c == '\U{0085}' || c == '\U{00A0}' || c == '\U{1680}'
    || ('\U{2000}' <= c <= '\U{200A}') || c == '\U{2028}' || c == '\U{2029}'
    || c == '\U{202F}' || c == '\U{205F}' || c == '\U{3000}'
  }

  /** s.lstrip(): exactly the leading whitespace removed. */
  function TrimLeft(s: string): (r: string)
    ensures r == [] || !IsSpace(r[0])
    ensures |r| <= |s| && r == s[|s| - |r|..]
    ensures forall i :: 0 <= i < |s| - |r| ==> IsSpace(s[i])
  {
    if s != [] && IsSpace(s[0]) then TrimLeft(s[1..]) else s
  }

  /** s.rstrip(): exactly the trailing whitespace removed. */
  function TrimRight(s: string): (r: string)
    ensures r == [] || !IsSpace(r[|r| - 1])
    ensures |r| <= |s| && r == s[..|r|]
    ensures forall i :: |r| <= i < |s| ==> IsSpace(s[i])
  {
    if s != [] && IsSpace(s[|s| - 1]) then TrimRight(s[..|s| - 1]) else s
  }

  /** The number of whitespace characters s starts with. */
  function LeadingSpaces(s: string): (n: nat)
    ensures n <= |s|
    ensures forall i :: 0 <= i < n ==> IsSpace(s[i])
    ensures n < |s| ==> !IsSpace(s[n])
  {
    if s != [] && IsSpace(s[0]) then 1 + LeadingSpaces(s[1..]) else 0
  }

  /** s.strip() */
  function Strip(s: string): (r: string)
    ensures r == [] || (!IsSpace(r[0]) && !IsSpace(r[|r| - 1]))
  {
    TrimRight(TrimLeft(s))
  }

  /** s.strip() removes exactly the leading and the trailing whitespace:
      the result is the slice of s after its leading whitespace, and only
      whitespace follows it. */
  lemma StripFacts(s: string)
    ensures var r := Strip(s);
      var a := LeadingSpaces(s);
      a + |r| <= |s| && r == s[a..a + |r|]
      && forall i :: a + |r| <= i < |s| ==> IsSpace(s[i])
  {
    var l := TrimLeft(s);
    var r := TrimRight(l);
    var a := LeadingSpaces(s);
    assert l == s[a..] by { TrimLeftLeading(s); }
    StripSlice(s, a, l, r);
  }

  lemma StripSlice(s: string, a: nat, l: string, r: string)
    requires a <= |s| && l == s[a..] && |r| <= |l| && r == l[..|r|]
    requires forall i :: |r| <= i < |l| ==> IsSpace(l[i])
    ensures a + |r| <= |s| && r == s[a..a + |r|]
    ensures forall i :: a + |r| <= i < |s| ==> IsSpace(s[i])
  {
    forall i | a + |r| <= i < |s|
      ensures IsSpace(s[i])
    {
      assert s[i] == l[i - a];
    }
  }

  lemma {:induction false} TrimLeftLeading(s: string)
    ensures TrimLeft(s) == s[LeadingSpaces(s)..]
  {
    if s != [] && IsSpace(s[0]) {
      TrimLeftLeading(s[1..]);
    }
  }

  /** s.split(sep) for a one-character separator: never an empty list. */
  function Split(s: string, sep: char): (r: seq<string>)
    ensures |r| >= 1
    ensures forall i :: 0 <= i < |r| ==> sep !in r[i]
  {
    if s == [] then [[]]
    else
      var rest := Split(s[1..], sep);
      if s[0] == sep then [[]] + rest else [[s[0]] + rest[0]] + rest[1..]
  }

  function Join(pieces: seq<string>, sep: char): string
    requires |pieces| >= 1
  {
    if |pieces| == 1 then pieces[0] else pieces[0] + [sep] + Join(pieces[1..], sep)
  }

  /** Joining the pieces with the separator gives the text back. */
  lemma {:induction false} SplitJoin(s: string, sep: char)
    ensures Join(Split(s, sep), sep) == s
  {
    if s != [] {
      var rest := Split(s[1..], sep);
      SplitJoin(s[1..], sep);
      if s[0] != sep {
        var r := Split(s, sep);
        if |rest| == 1 {
          assert r == [[s[0]] + rest[0]];
        } else {
          assert r[1..] == rest[1..];
          assert Join(r, sep) == [s[0]] + rest[0] + [sep] + Join(rest[1..], sep);
        }
      }
    }
  }

  /** s.split() with no argument: the maximal runs of non-whitespace. */
  function Fields(s: string): (r: seq<string>)
    ensures forall i :: 0 <= i < |r| ==> r[i] != [] && forall j :: 0 <= j < |r[i]| ==> !IsSpace(r[i][j])
    ensures s != [] && !IsSpace(s[0]) ==> |r| > 0 && r[0][0] == s[0]
  {
    if s == [] then []
    else if IsSpace(s[0]) then Fields(s[1..])
    else
      var rest := Fields(s[1..]);
      if |s| > 1 && !IsSpace(s[1]) then [[s[0]] + rest[0]] + rest[1..]
      else [[s[0]]] + rest
  }

  /** A whitespace character separates: the fields before it come first,
      then the fields after it, and no field spans it. */
  lemma {:induction false} FieldsAtSpace(a: string, c: char, b: string)
    requires IsSpace(c)
    ensures Fields(a + [c] + b) == Fields(a) + Fields(b)
    decreases |a|
  {
    var s := a + [c] + b;
    if a == [] {
      assert s == [c] + b;
    } else {
      var tail := a[1..] + [c] + b;
      assert s == [a[0]] + tail;
      FieldsAtSpace(a[1..], c, b);
      if !IsSpace(a[0]) {
        FieldsJoinHead(a, c, b);
      }
    }
  }

  /** One step of Fields on a first character that is not whitespace: it
      starts a new field or extends the next one. */
  lemma FieldsStep(x: char, t: string)
    requires !IsSpace(x)
    ensures t != [] && !IsSpace(t[0]) ==> |Fields(t)| > 0 && Fields([x] + t) == [[x] + Fields(t)[0]] + Fields(t)[1..]
    ensures t == [] || IsSpace(t[0]) ==> Fields([x] + t) == [[x]] + Fields(t)
  {
    var s := [x] + t;
    assert s[0] == x && s[1..] == t;
  }

  /** The step of FieldsAtSpace for a first character that is not whitespace. */
  lemma FieldsJoinHead(a: string, c: char, b: string)
    requires IsSpace(c) && a != [] && !IsSpace(a[0])
    requires Fields(a[1..] + [c] + b) == Fields(a[1..]) + Fields(b)
    ensures Fields(a + [c] + b) == Fields(a) + Fields(b)
  {
    var rest := a[1..];
    var tail := rest + [c] + b;
    assert a + [c] + b == [a[0]] + tail;
    assert a == [a[0]] + rest;
    if rest != [] && !IsSpace(rest[0]) {
      assert tail[0] == rest[0];
      FieldsExtend(a[0], rest, Fields(rest), Fields(b), tail);
    } else {
      assert tail[0] == (if rest != [] then rest[0] else c);
      FieldsNewField(a[0], rest, Fields(rest), Fields(b), tail);
    }
  }

  lemma FieldsNewField(x: char, rest: string, fa: seq<string>, fb: seq<string>, tail: string)
    requires !IsSpace(x) && (rest == [] || IsSpace(rest[0])) && tail != [] && IsSpace(tail[0])
    requires fa == Fields(rest) && Fields(tail) == fa + fb
    ensures Fields([x] + tail) == Fields([x] + rest) + fb
  {
    var head: seq<string> := [[x]];
    assert Fields([x] + tail) == head + (fa + fb) by {
      FieldsStep(x, tail);
    }
    assert Fields([x] + rest) == head + fa by {
      FieldsStep(x, rest);
    }
    ConcatAssoc(head, fa, fb);
  }

  lemma ConcatHead<T>(a: seq<T>, b: seq<T>)
    requires a != []
    ensures (a + b)[0] == a[0] && (a + b)[1..] == a[1..] + b
  {
  }

  lemma ConcatAssoc<T>(a: seq<T>, b: seq<T>, c: seq<T>)
    ensures a + (b + c) == (a + b) + c
  {
  }

  lemma FieldsExtend(x: char, rest: string, fa: seq<string>, fb: seq<string>, tail: string)
    requires !IsSpace(x) && rest != [] && !IsSpace(rest[0]) && tail != [] && tail[0] == rest[0]
    requires fa == Fields(rest) && Fields(tail) == fa + fb
    ensures Fields([x] + tail) == Fields([x] + rest) + fb
  {
    assert |fa| > 0 by { FieldsStep(x, rest); }
    var head: seq<string> := [[x] + fa[0]];
    assert Fields([x] + tail) == head + (fa[1..] + fb) by {
      FieldsStep(x, tail);
      ConcatHead(fa, fb);
    }
    assert Fields([x] + rest) == head + fa[1..] by {
      FieldsStep(x, rest);
    }
    ConcatAssoc(head, fa[1..], fb);
  }

  /** A non-empty run without whitespace is a single field. */
  lemma {:induction false} FieldsWord(w: string)
    requires w != [] && forall i :: 0 <= i < |w| ==> !IsSpace(w[i])
    ensures Fields(w) == [w]
  {
    assert w == [w[0]] + w[1..];
    FieldsStep(w[0], w[1..]);
    if |w| > 1 {
      FieldsWord(w[1..]);
    } else {
      var e: string := [];
      assert w[1..] == e;
      assert Fields(e) == [];
      assert w == [w[0]];
      ConcatAssoc([w], [], []);
    }
  }

  /** Text made of whitespace only has no fields. */
  lemma {:induction false} FieldsSpaces(s: string)
    requires forall i :: 0 <= i < |s| ==> IsSpace(s[i])
    ensures Fields(s) == []
  {
    if s != [] {
      FieldsSpaces(s[1..]);
    }
  }

  // ---------------------------------------------------------------------
  // Python's string order: code point by code point, a proper prefix first.

  predicate Less(a: string, b: string)
    decreases |a|
  {
    b != [] && (a == [] || a[0] < b[0] || (a[0] == b[0] && Less(a[1..], b[1..])))
  }

  lemma {:induction false} LessIrreflexive(a: string)
    ensures !Less(a, a)
    decreases |a|
  {
    if a != [] {
      LessIrreflexive(a[1..]);
    }
  }

  lemma {:induction false} LessTransitive(a: string, b: string, c: string)
    requires Less(a, b) && Less(b, c)
    ensures Less(a, c)
    decreases |a|
  {
    if a != [] && a[0] == b[0] && b[0] == c[0] {
      LessTransitive(a[1..], b[1..], c[1..]);
    }
  }

  /** Two different strings are ordered one way or the other. */
  lemma {:induction false} LessTotal(a: string, b: string)
    requires a != b
    ensures Less(a, b) || Less(b, a)
    decreases |a|
  {
    if a != [] && b != [] && a[0] == b[0] {
      assert a == [a[0]] + a[1..] && b == [b[0]] + b[1..];
      LessTotal(a[1..], b[1..]);
    }
  }

  /** Strictly increasing in Python's string order (so without repeats). */
  predicate Ascending(s: seq<string>)
  {
    forall i, j :: 0 <= i < j < |s| ==> Less(s[i], s[j])
  }

  lemma AscendingCons(x: string, s: seq<string>)
    requires Ascending(s) && forall y :: y in s ==> Less(x, y)
    ensures Ascending([x] + s)
  {
    forall i, j | 0 <= i < j < |[x] + s|
      ensures Less(([x] + s)[i], ([x] + s)[j])
    {
      if i > 0 {
        assert ([x] + s)[i] == s[i - 1] && ([x] + s)[j] == s[j - 1];
      } else {
        assert ([x] + s)[j] in s;
      }
    }
  }

  /** Inserts x into an ascending list unless it is already there: the
      list of set(keys) kept in sorted order. */
  function InsertKey(x: string, s: seq<string>): (r: seq<string>)
    requires Ascending(s)
    ensures Ascending(r)
    ensures forall y :: y in r <==> y in s || y == x
  {
    if s == [] then [x]
    else if x == s[0] then s
    else if Less(x, s[0]) then
      BelowFirst(x, s);
      AscendingCons(x, s);
      [x] + s
    else
      LessTotal(x, s[0]);
      var rest := InsertKey(x, s[1..]);
      assert forall y :: y in rest ==> Less(s[0], y) by {
        forall y | y in rest ensures Less(s[0], y) {
          if y != x {
            var j :| 0 <= j < |s[1..]| && s[1..][j] == y;
            assert s[j + 1] == y;
          }
        }
      }
      AscendingCons(s[0], rest);
      [s[0]] + rest
  }

  lemma BelowFirst(x: string, s: seq<string>)
    requires Ascending(s) && s != [] && Less(x, s[0])
    ensures forall y :: y in s ==> Less(x, y)
  {
    forall y | y in s ensures Less(x, y) {
      var j :| 0 <= j < |s| && s[j] == y;
      if j > 0 {
        LessTransitive(x, s[0], s[j]);
      }
    }
  }

  /** An ascending list is determined by its elements: sorting a set has
      exactly one result. */
  lemma {:induction false} AscendingUnique(a: seq<string>, b: seq<string>)
    requires Ascending(a) && Ascending(b)
    requires forall y :: y in a <==> y in b
    ensures a == b
    decreases |a|
  {
    if a == [] {
      assert forall i :: 0 <= i < |b| ==> b[i] in a;
    } else {
      assert a[0] in a;
      assert b != [];
      if a[0] != b[0] {
        var k :| 0 < k < |b| && b[k] == a[0];
        FirstIsLeast(a, b[0]);
        LessTransitive(a[0], b[0], a[0]);
        LessIrreflexive(a[0]);
      }
      forall y ensures y in a[1..] <==> y in b[1..] {
        AscendingTail(a, y);
        AscendingTail(b, y);
      }
      AscendingUnique(a[1..], b[1..]);
      assert a == [a[0]] + a[1..] && b == [b[0]] + b[1..];
    }
  }

  /** Every other element of an ascending list comes after its first. */
  lemma FirstIsLeast(s: seq<string>, y: string)
    requires Ascending(s) && s != [] && y in s && y != s[0]
    ensures Less(s[0], y)
  {
  }

  lemma AscendingTail(s: seq<string>, y: string)
    requires Ascending(s) && s != []
    ensures y in s[1..] <==> y in s && y != s[0]
  {
    if y in s[1..] {
      var j :| 0 <= j < |s[1..]| && s[1..][j] == y;
      assert Less(s[0], s[j + 1]);
      LessIrreflexive(y);
    }
    if y in s && y != s[0] {
      var j :| 0 <= j < |s| && s[j] == y;
      assert s[1..][j - 1] == y;
    }
  }

  predicate StartsWith(s: string, c: char) { |s| > 0 && s[0] == c }
}
