// A Python dict from names to numbers, as the segment scripts use one per
// keyword: an association list in insertion order, where assigning an
// existing key keeps its place and assigning a new key appends it.
module Dicts {
  import opened Wrappers
  import opened Ranking

  /** d[name], or None where Python raises KeyError. */
  function Get(d: seq<Entry>, name: string): Option<real>
  {
    if d == [] then None
    else if d[0].name == name then Some(d[0].value)
    else Get(d[1..], name)
  }

  /** d.get(name, default) */
  function GetOr(d: seq<Entry>, name: string, default: real): (r: real)
    ensures Get(d, name).Some? ==> r == Get(d, name).value
    ensures Get(d, name).None? ==> r == default
  {
    match Get(d, name)
    case Some(v) => v
    case None => default
  }

  /** d[name] = value */
  function Assign(d: seq<Entry>, name: string, value: real): seq<Entry>
  {
    if d == [] then [Entry(name, value)]
    else if d[0].name == name then [Entry(name, value)] + d[1..]
    else [d[0]] + Assign(d[1..], name, value)
  }

  /** The keys in insertion order. */
  function Keys(d: seq<Entry>): (r: seq<string>)
    ensures |r| == |d| && forall i :: 0 <= i < |d| ==> r[i] == d[i].name
  {
    seq(|d|, i requires 0 <= i < |d| => d[i].name)
  }

  /** d.values(), in insertion order. */
  function Values(d: seq<Entry>): (r: seq<real>)
    ensures |r| == |d| && forall i :: 0 <= i < |d| ==> r[i] == d[i].value
  {
    seq(|d|, i requires 0 <= i < |d| => d[i].value)
  }

  predicate DistinctKeys(d: seq<Entry>)
  {
    forall i, j :: 0 <= i < j < |d| ==> d[i].name != d[j].name
  }

  /** After an assignment the key reads back the new value and every other
      key reads back what it did before. */
  lemma {:induction false} AssignGet(d: seq<Entry>, name: string, value: real, other: string)
    ensures Get(Assign(d, name, value), other) == if other == name then Some(value) else Get(d, other)
  {
    if d != [] && d[0].name != name {
      AssignGet(d[1..], name, value, other);
    }
  }

  /** Assigning a key the dict does not hold appends it. */
  lemma {:induction false} AssignFresh(d: seq<Entry>, name: string, value: real)
    requires forall i :: 0 <= i < |d| ==> d[i].name != name
    ensures Assign(d, name, value) == d + [Entry(name, value)]
  {
    if d != [] {
      AssignFresh(d[1..], name, value);
    }
  }

  /** In a dict with distinct keys, each key reads back its own entry. */
  lemma {:induction false} GetAt(d: seq<Entry>, i: nat)
    requires DistinctKeys(d) && i < |d|
    ensures Get(d, d[i].name) == Some(d[i].value)
  {
    if i > 0 {
      assert d[0].name != d[i].name;
      GetAt(d[1..], i - 1);
    }
  }

  /** A key not among the entries reads back None. */
  lemma {:induction false} GetAbsent(d: seq<Entry>, name: string)
    requires forall i :: 0 <= i < |d| ==> d[i].name != name
    ensures Get(d, name) == None
  {
    if d != [] {
      GetAbsent(d[1..], name);
    }
  }

  /** Assigning names in turn, starting from an empty dict (the loop
      `d[names[i]] = values[i]`), from the last assignment back. */
  function Filled(names: seq<string>, values: seq<real>): (r: seq<Entry>)
    requires |values| == |names|
  {
    if names == [] then []
    else
      var n := |names| - 1;
      Assign(Filled(names[..n], values[..n]), names[n], values[n])
  }

  /** With distinct names the dict holds one entry per name, in the order
      assigned. */
  lemma {:induction false} FilledInOrder(names: seq<string>, values: seq<real>)
    requires |values| == |names|
    requires forall i, j :: 0 <= i < j < |names| ==> names[i] != names[j]
    ensures |Filled(names, values)| == |names|
    ensures forall i :: 0 <= i < |names| ==> Filled(names, values)[i] == Entry(names[i], values[i])
  {
    if names != [] {
      var n := |names| - 1;
      var prev := Filled(names[..n], values[..n]);
      FilledInOrder(names[..n], values[..n]);
      AssignFresh(prev, names[n], values[n]);
    }
  }

  /** A dict of dicts filled key by key (`outer[keys[k]] = rows[k]`), from
      the last assignment back. */
  function Nested(keys: seq<string>, rows: seq<seq<Entry>>): map<string, seq<Entry>>
    requires |rows| == |keys|
  {
    if keys == [] then map[]
    else
      var n := |keys| - 1;
      Nested(keys[..n], rows[..n])[keys[n] := rows[n]]
  }

  /** One more assignment of the loop `outer[keys[k]] = rows[k]`. */
  lemma NestedStep(keys: seq<string>, rows: seq<seq<Entry>>, k: nat)
    requires |rows| == |keys| && k < |keys|
    ensures Nested(keys[..k + 1], rows[..k + 1]) == Nested(keys[..k], rows[..k])[keys[k] := rows[k]]
  {
    assert keys[..k + 1][..k] == keys[..k] && rows[..k + 1][..k] == rows[..k];
  }

  /** The outer keys are exactly the keys assigned. */
  lemma {:induction false} NestedKeys(keys: seq<string>, rows: seq<seq<Entry>>, key: string)
    requires |rows| == |keys|
    ensures key in Nested(keys, rows) <==> key in keys
  {
    if keys != [] {
      var n := |keys| - 1;
      NestedKeys(keys[..n], rows[..n], key);
      assert keys == keys[..n] + [keys[n]];
    }
  }

  /** With distinct keys each key holds its own row. */
  lemma {:induction false} NestedAt(keys: seq<string>, rows: seq<seq<Entry>>, k: nat)
    requires |rows| == |keys| && k < |keys|
    requires forall i, j :: 0 <= i < j < |keys| ==> keys[i] != keys[j]
    ensures keys[k] in Nested(keys, rows) && Nested(keys, rows)[keys[k]] == rows[k]
  {
    var n := |keys| - 1;
    if k < n {
      NestedAt(keys[..n], rows[..n], k);
    }
  }

  /** Every row held is one of the rows assigned. */
  lemma {:induction false} NestedRows(keys: seq<string>, rows: seq<seq<Entry>>, key: string)
    requires |rows| == |keys| && key in Nested(keys, rows)
    ensures exists k :: 0 <= k < |rows| && Nested(keys, rows)[key] == rows[k]
  {
    var n := |keys| - 1;
    if key != keys[n] {
      NestedRows(keys[..n], rows[..n], key);
      var k :| 0 <= k < n && Nested(keys[..n], rows[..n])[key] == rows[..n][k];
      assert rows[..n][k] == rows[k];
    }
  }

  /** One more assignment of the loop `d[names[i]] = values[i]`. */
  lemma FilledStep(names: seq<string>, values: seq<real>, j: nat)
    requires |values| == |names| && j < |names|
    ensures Filled(names[..j + 1], values[..j + 1]) == Assign(Filled(names[..j], values[..j]), names[j], values[j])
  {
    assert names[..j + 1][..j] == names[..j] && values[..j + 1][..j] == values[..j];
  }

  /** The concatenation of parts, as a loop `acc += part` builds it. */
  function Flatten<T>(parts: seq<seq<T>>): seq<T>
  {
    if parts == [] then [] else Flatten(parts[..|parts| - 1]) + parts[|parts| - 1]
  }

  /** One more part of the loop `acc += parts[i]`. */
  lemma FlattenStep<T>(parts: seq<seq<T>>, j: nat)
    requires j < |parts|
    ensures Flatten(parts[..j + 1]) == Flatten(parts[..j]) + parts[j]
  {
    assert parts[..j + 1][..j] == parts[..j];
  }

  /** The first part comes first. */
  lemma {:induction false} FlattenCons<T>(parts: seq<seq<T>>)
    requires parts != []
    ensures Flatten(parts) == parts[0] + Flatten(parts[1..])
  {
    if |parts| > 1 {
      var n := |parts| - 1;
      FlattenCons(parts[..n]);
      assert parts[..n][1..] == parts[1..][..n - 1];
    } else {
      assert parts[..0] == [];
    }
  }

  lemma {:induction false} FlattenLength<T>(parts: seq<seq<T>>, m: nat)
    requires forall k :: 0 <= k < |parts| ==> |parts[k]| <= m
    ensures |Flatten(parts)| <= |parts| * m
  {
    if parts != [] {
      var n := |parts| - 1;
      FlattenLength(parts[..n], m);
      assert |parts| * m == n * m + m;
    }
  }

}
