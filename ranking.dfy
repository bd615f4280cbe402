// `sorted(d.items(), key=lambda x: x[1], reverse=True)` followed by
// `enumerate(..., 1)`: the ranking the scripts print for per-segment and
// per-activity averages.
module Ranking {

  datatype Entry = Entry(name: string, value: real)

  predicate Descending(s: seq<Entry>)
  {
    forall i, j :: 0 <= i < j < |s| ==> s[i].value >= s[j].value
  }

  predicate AtMost(s: seq<Entry>, v: real)
  {
    forall k :: 0 <= k < |s| ==> s[k].value <= v
  }

  /** Puts x before the first entry whose value does not exceed it. */
  function Insert(x: Entry, s: seq<Entry>): seq<Entry>
  {
    if s == [] then [x]
    else if s[0].value <= x.value then [x] + s
    else [s[0]] + Insert(x, s[1..])
  }

  lemma {:induction false} InsertCounts(x: Entry, s: seq<Entry>)
    ensures |Insert(x, s)| == |s| + 1
    ensures multiset(Insert(x, s)) == multiset(s) + multiset{x}
  {
    if s != [] && s[0].value > x.value {
      InsertCounts(x, s[1..]);
      assert s == [s[0]] + s[1..];
    }
  }

  lemma {:induction false} InsertAtMost(x: Entry, s: seq<Entry>, v: real)
    requires AtMost(s, v) && x.value <= v
    ensures AtMost(Insert(x, s), v)
  {
    if s != [] && s[0].value > x.value {
      InsertAtMost(x, s[1..], v);
    }
  }

  lemma {:induction false} InsertDescending(x: Entry, s: seq<Entry>)
    requires Descending(s)
    ensures Descending(Insert(x, s))
  {
    if s != [] && s[0].value > x.value {
      InsertDescending(x, s[1..]);
      InsertAtMost(x, s[1..], s[0].value);
    }
  }

  lemma HeadMultiset(s: seq<Entry>)
    requires s != []
    ensures multiset(s) == multiset(s[1..]) + multiset{s[0]}
  {
    assert s == [s[0]] + s[1..];
  }

  /** The entries of value v, in their order in s. */
  function WithValue(s: seq<Entry>, v: real): seq<Entry>
  {
    if s == [] then [] else (if s[0].value == v then [s[0]] else []) + WithValue(s[1..], v)
  }

  /** Insertion puts x ahead of every entry of its own value. */
  lemma {:induction false} InsertWithValue(x: Entry, s: seq<Entry>)
    ensures forall v :: WithValue(Insert(x, s), v) == (if x.value == v then [x] else []) + WithValue(s, v)
  {
    if s != [] && s[0].value > x.value {
      InsertWithValue(x, s[1..]);
      var r := Insert(x, s);
      assert r[0] == s[0] && r[1..] == Insert(x, s[1..]);
    }
  }

  /** Stable sort by value, largest first (Python's sort with reverse=True):
      entries of equal value keep their input order. */
  function SortDescending(s: seq<Entry>): (r: seq<Entry>)
    ensures |r| == |s|
    ensures Descending(r)
    ensures multiset(r) == multiset(s)
    ensures forall v :: WithValue(r, v) == WithValue(s, v)
  {
    if s == [] then []
    else
      var rest := SortDescending(s[1..]);
      InsertCounts(s[0], rest);
      InsertDescending(s[0], rest);
      InsertWithValue(s[0], rest);
      HeadMultiset(s);
      Insert(s[0], rest)
  }

  datatype RankedEntry = RankedEntry(rank: nat, entry: Entry)

  /** enumerate(sorted, 1): ranks 1..n in sorted order. */
  function Ranked(s: seq<Entry>): (r: seq<RankedEntry>)
    ensures |r| == |s|
    ensures forall i :: 0 <= i < |r| ==> r[i].rank == i + 1
    ensures forall i :: 0 <= i < |r| ==> r[i].entry == SortDescending(s)[i]
  {
    var sorted := SortDescending(s);
    seq(|sorted|, i requires 0 <= i < |sorted| => RankedEntry(i + 1, sorted[i]))
  }

  /** The ranking lists every entry once, numbered from 1, in non-increasing
      order of value. */
  lemma RankingIsOrderedPermutation(s: seq<Entry>)
    ensures var r := Ranked(s);
      (forall i :: 0 <= i < |r| ==> r[i].rank == i + 1)
      && (forall i, j :: 0 <= i < j < |r| ==> r[i].entry.value >= r[j].entry.value)
      && multiset(seq(|r|, i requires 0 <= i < |r| => r[i].entry)) == multiset(s)
  {
    var r := Ranked(s);
    assert seq(|r|, i requires 0 <= i < |r| => r[i].entry) == SortDescending(s);
  }
}
