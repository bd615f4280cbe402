// re.sub('<.*?>', '', x): the tag stripping applied to shopping titles and
// blog titles and descriptions. `.` does not match a newline, so a tag runs
// from a '<' to the nearest following '>' on the same line.
module NaverMarkup {
  import opened Wrappers

  /** Index in t of the first '>' that comes before any newline. */
  function FindClose(t: string): (r: Option<nat>)
    ensures r.Some? ==> (r.value < |t| && t[r.value] == '>'
      && forall k :: 0 <= k < r.value ==> t[k] != '\n' && t[k] != '>')
    ensures r.None? ==> forall k :: 0 <= k < |t| && t[k] == '>' ==> exists j :: 0 <= j < k && t[j] == '\n'
  {
    if t == [] then None
    else if t[0] == '\n' then None
    else if t[0] == '>' then Some(0)
    else
      match FindClose(t[1..])
      case None =>
        assert forall k :: 1 <= k < |t| && t[k] == '>' ==> t[1..][k - 1] == '>';
        None
      case Some(j) => Some(j + 1)
  }

  /** Scans left to right; each '<' that has a '>' later on its line is
      deleted through that '>', everything else is kept. */
  function StripTags(s: string): (r: string)
    ensures |r| <= |s|
    decreases |s|
  {
    if s == [] then []
    else if s[0] == '<' && FindClose(s[1..]).Some? then StripTags(s[FindClose(s[1..]).value + 2..])
    else [s[0]] + StripTags(s[1..])
  }

  /** No '<' of s is followed by a '>' on the same line: nothing to strip. */
  predicate TagFree(s: string)
    decreases |s|
  {
    s == [] || ((s[0] == '<' ==> FindClose(s[1..]).None?) && TagFree(s[1..]))
  }

  /** Stripping never brings a '>' onto a line that had none before its end. */
  lemma {:induction false} StripKeepsLineWithoutClose(s: string)
    requires FindClose(s).None?
    ensures FindClose(StripTags(s)).None?
    decreases |s|
  {
    if s != [] && s[0] != '\n' {
      assert s[0] != '>';
      assert FindClose(s[1..]).None?;
      StripKeepsLineWithoutClose(s[1..]);
    }
  }

  lemma {:induction false} StripLeavesNoTag(s: string)
    ensures TagFree(StripTags(s))
    decreases |s|
  {
    if s != [] {
      if s[0] == '<' && FindClose(s[1..]).Some? {
        StripLeavesNoTag(s[FindClose(s[1..]).value + 2..]);
      } else {
        var r := StripTags(s);
        StripLeavesNoTag(s[1..]);
        assert r[1..] == StripTags(s[1..]);
        if s[0] == '<' {
          StripKeepsLineWithoutClose(s[1..]);
        }
      }
    }
  }

  lemma {:induction false} StripTagFree(s: string)
    requires TagFree(s)
    ensures StripTags(s) == s
    decreases |s|
  {
    if s != [] {
      StripTagFree(s[1..]);
    }
  }

  /** Stripping twice is the same as stripping once. */
  lemma StripIdempotent(s: string)
    ensures StripTags(StripTags(s)) == StripTags(s)
  {
    StripLeavesNoTag(s);
    StripTagFree(StripTags(s));
  }

  lemma StripExample()
    ensures StripTags("<b>Sun Cream</b>") == "Sun Cream"
  {
    var s := "<b>Sun Cream</b>";
    assert FindClose(s[1..]) == Some(1);
    assert s[3..] == "Sun Cream</b>";
    var t := "</b>";
    assert FindClose(t[1..]) == Some(2);
    assert StripTags(t) == [];
    assert "Sun Cream</b>" == "Sun Cream" + t;
    StripPlainPrefix("Sun Cream", t);
  }

  /** A prefix with no '<' is kept as it is. */
  lemma {:induction false} StripPlainPrefix(p: string, t: string)
    requires '<' !in p
    ensures StripTags(p + t) == p + StripTags(t)
    decreases |p|
  {
    if p != [] {
      assert (p + t)[1..] == p[1..] + t;
      StripPlainPrefix(p[1..], t);
    } else {
      assert p + t == t;
    }
  }
}
