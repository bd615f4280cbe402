// Classification rules the segment scripts apply to per-segment averages:
// the four quadrants against the two means, the blue-ocean listing against
// half a sport's maximum, and the table flags against 0.8 of it.
module SegmentRules {
  import opened Stats

  const SUNCREAM: string := "선크림"
  const SPORTS: seq<string> := ["스키장", "스키", "스노우보드"]

  /** A (both high), B (blue ocean), C (suncream only), D (both low). */
  datatype Quadrant = BothHigh | BlueOcean | SuncreamOnly | BothLow

  /** The if/elif chain: sc is the segment's suncream value, sp its sport value. */
  function QuadrantOf(sc: real, scAvg: real, sp: real, spAvg: real): (q: Quadrant)
    ensures q == BothHigh <==> sc >= scAvg && sp >= spAvg
    ensures q == BlueOcean <==> sc < scAvg && sp >= spAvg
    ensures q == SuncreamOnly <==> sc >= scAvg && sp < spAvg
    ensures q == BothLow <==> sc < scAvg && sp < spAvg
  {
    if sc >= scAvg && sp >= spAvg then BothHigh
    else if sc < scAvg && sp >= spAvg then BlueOcean
    else if sc >= scAvg && sp < spAvg then SuncreamOnly
    else BothLow
  }

  /** The names of the segments that land in quadrant q, in segment order. */
  function InQuadrant(names: seq<string>, sc: seq<real>, sp: seq<real>, scAvg: real, spAvg: real, q: Quadrant): (r: seq<string>)
    requires |sc| == |names| && |sp| == |names|
    ensures |r| <= |names|
  {
    if names == [] then []
    else
      var n := |names| - 1;
      InQuadrant(names[..n], sc[..n], sp[..n], scAvg, spAvg, q)
        + (if QuadrantOf(sc[n], scAvg, sp[n], spAvg) == q then [names[n]] else [])
  }

  /** One more segment extends the list of its own quadrant only. */
  lemma InQuadrantStep(names: seq<string>, sc: seq<real>, sp: seq<real>, scAvg: real, spAvg: real, i: nat, q: Quadrant)
    requires |sc| == |names| && |sp| == |names| && i < |names|
    ensures InQuadrant(names[..i + 1], sc[..i + 1], sp[..i + 1], scAvg, spAvg, q)
      == InQuadrant(names[..i], sc[..i], sp[..i], scAvg, spAvg, q)
        + (if QuadrantOf(sc[i], scAvg, sp[i], spAvg) == q then [names[i]] else [])
  {
    assert names[..i + 1][..i] == names[..i] && sc[..i + 1][..i] == sc[..i] && sp[..i + 1][..i] == sp[..i];
  }

  /** The loop filling the four quadrant lists. */
  method ClassifyQuadrants(names: seq<string>, sc: seq<real>, sp: seq<real>, scAvg: real, spAvg: real)
    returns (a: seq<string>, b: seq<string>, c: seq<string>, d: seq<string>)
    requires |sc| == |names| && |sp| == |names|
    ensures a == InQuadrant(names, sc, sp, scAvg, spAvg, BothHigh)
    ensures b == InQuadrant(names, sc, sp, scAvg, spAvg, BlueOcean)
    ensures c == InQuadrant(names, sc, sp, scAvg, spAvg, SuncreamOnly)
    ensures d == InQuadrant(names, sc, sp, scAvg, spAvg, BothLow)
  {
    a, b, c, d := [], [], [], [];
    var i := 0;
    while i < |names|
      invariant 0 <= i <= |names|
      invariant a == InQuadrant(names[..i], sc[..i], sp[..i], scAvg, spAvg, BothHigh)
      invariant b == InQuadrant(names[..i], sc[..i], sp[..i], scAvg, spAvg, BlueOcean)
      invariant c == InQuadrant(names[..i], sc[..i], sp[..i], scAvg, spAvg, SuncreamOnly)
      invariant d == InQuadrant(names[..i], sc[..i], sp[..i], scAvg, spAvg, BothLow)
    {
      InQuadrantStep(names, sc, sp, scAvg, spAvg, i, BothHigh);
      InQuadrantStep(names, sc, sp, scAvg, spAvg, i, BlueOcean);
      InQuadrantStep(names, sc, sp, scAvg, spAvg, i, SuncreamOnly);
      InQuadrantStep(names, sc, sp, scAvg, spAvg, i, BothLow);
      if sc[i] >= scAvg && sp[i] >= spAvg {
        a := a + [names[i]];
      } else if sc[i] < scAvg && sp[i] >= spAvg {
        b := b + [names[i]];
      } else if sc[i] >= scAvg && sp[i] < spAvg {
        c := c + [names[i]];
      } else {
        d := d + [names[i]];
      }
      i := i + 1;
    }
    assert names[..|names|] == names && sc[..|names|] == sc && sp[..|names|] == sp;
  }

  /** The last segment adds itself to its own quadrant's list only. */
  lemma QuadrantStep(names: seq<string>, sc: seq<real>, sp: seq<real>, scAvg: real, spAvg: real, q: Quadrant)
    requires |sc| == |names| && |sp| == |names| && names != []
    ensures var n := |names| - 1;
      multiset(InQuadrant(names, sc, sp, scAvg, spAvg, q))
        == multiset(InQuadrant(names[..n], sc[..n], sp[..n], scAvg, spAvg, q))
          + (if QuadrantOf(sc[n], scAvg, sp[n], spAvg) == q then multiset{names[n]} else multiset{})
  {
  }

  /** Every segment lands in exactly one quadrant: together the four lists
      are the segments, each once. */
  lemma {:induction false} QuadrantsPartition(names: seq<string>, sc: seq<real>, sp: seq<real>, scAvg: real, spAvg: real)
    requires |sc| == |names| && |sp| == |names|
    ensures multiset(InQuadrant(names, sc, sp, scAvg, spAvg, BothHigh))
          + multiset(InQuadrant(names, sc, sp, scAvg, spAvg, BlueOcean))
          + multiset(InQuadrant(names, sc, sp, scAvg, spAvg, SuncreamOnly))
          + multiset(InQuadrant(names, sc, sp, scAvg, spAvg, BothLow)) == multiset(names)
  {
    if names != [] {
      var n := |names| - 1;
      QuadrantsPartition(names[..n], sc[..n], sp[..n], scAvg, spAvg);
      assert names == names[..n] + [names[n]];
      assert multiset(names) == multiset(names[..n]) + multiset{names[n]};
      QuadrantStep(names, sc, sp, scAvg, spAvg, BothHigh);
      QuadrantStep(names, sc, sp, scAvg, spAvg, BlueOcean);
      QuadrantStep(names, sc, sp, scAvg, spAvg, SuncreamOnly);
      QuadrantStep(names, sc, sp, scAvg, spAvg, BothLow);
      AddToOne(multiset(InQuadrant(names[..n], sc[..n], sp[..n], scAvg, spAvg, BothHigh)),
               multiset(InQuadrant(names[..n], sc[..n], sp[..n], scAvg, spAvg, BlueOcean)),
               multiset(InQuadrant(names[..n], sc[..n], sp[..n], scAvg, spAvg, SuncreamOnly)),
               multiset(InQuadrant(names[..n], sc[..n], sp[..n], scAvg, spAvg, BothLow)),
               names[n], QuadrantOf(sc[n], scAvg, sp[n], spAvg));
    }
  }

  /** Adding an element to exactly one of four parts adds it to their sum. */
  lemma AddToOne(a: multiset<string>, b: multiset<string>, c: multiset<string>, d: multiset<string>, x: string, q: Quadrant)
    ensures (a + (if q == BothHigh then multiset{x} else multiset{}))
          + (b + (if q == BlueOcean then multiset{x} else multiset{}))
          + (c + (if q == SuncreamOnly then multiset{x} else multiset{}))
          + (d + (if q == BothLow then multiset{x} else multiset{}))
          == a + b + c + d + multiset{x}
  {
  }

  /** A segment is in a quadrant's list exactly when its values put it there. */
  lemma {:induction false} InQuadrantMembers(names: seq<string>, sc: seq<real>, sp: seq<real>, scAvg: real, spAvg: real, q: Quadrant, i: nat)
    requires |sc| == |names| && |sp| == |names| && i < |names|
    requires forall j :: 0 <= j < |names| && j != i ==> names[j] != names[i]
    ensures names[i] in InQuadrant(names, sc, sp, scAvg, spAvg, q) <==> QuadrantOf(sc[i], scAvg, sp[i], spAvg) == q
  {
    var n := |names| - 1;
    var prefix := InQuadrant(names[..n], sc[..n], sp[..n], scAvg, spAvg, q);
    if i < n {
      InQuadrantMembers(names[..n], sc[..n], sp[..n], scAvg, spAvg, q, i);
      assert names[n] != names[i];
    } else {
      NotInQuadrant(names[..n], sc[..n], sp[..n], scAvg, spAvg, q, names[i]);
    }
  }

  lemma {:induction false} NotInQuadrant(names: seq<string>, sc: seq<real>, sp: seq<real>, scAvg: real, spAvg: real, q: Quadrant, x: string)
    requires |sc| == |names| && |sp| == |names| && x !in names
    ensures x !in InQuadrant(names, sc, sp, scAvg, spAvg, q)
  {
    if names != [] {
      var n := |names| - 1;
      assert x !in names[..n];
      NotInQuadrant(names[..n], sc[..n], sp[..n], scAvg, spAvg, q, x);
    }
  }

  // ---------------------------------------------------------------------
  // Blue-ocean listing: sport interest above half the sport's maximum and
  // suncream interest below the suncream mean.

  predicate BlueOceanCandidate(sc: real, scAvg: real, sp: real, spMax: real)
  {
    sp > spMax * 0.5 && sc < scAvg
  }

  function BlueOceanList(names: seq<string>, sc: seq<real>, sp: seq<real>, scAvg: real, spMax: real): (r: seq<string>)
    requires |sc| == |names| && |sp| == |names|
    ensures |r| <= |names|
  {
    if names == [] then []
    else
      var n := |names| - 1;
      BlueOceanList(names[..n], sc[..n], sp[..n], scAvg, spMax)
        + (if BlueOceanCandidate(sc[n], scAvg, sp[n], spMax) then [names[n]] else [])
  }

  /** The loop over segments that lists candidates and remembers whether any
      was found; the "none" message is shown exactly when `found` is false. */
  method ListBlueOcean(names: seq<string>, sc: seq<real>, sp: seq<real>, scAvg: real, spMax: real)
    returns (listed: seq<string>, found: bool)
    requires |sc| == |names| && |sp| == |names|
    ensures listed == BlueOceanList(names, sc, sp, scAvg, spMax)
    ensures found <==> listed != []
  {
    listed := [];
    found := false;
    var i := 0;
    while i < |names|
      invariant 0 <= i <= |names|
      invariant listed == BlueOceanList(names[..i], sc[..i], sp[..i], scAvg, spMax)
      invariant found <==> listed != []
    {
      assert names[..i + 1][..i] == names[..i] && sc[..i + 1][..i] == sc[..i] && sp[..i + 1][..i] == sp[..i];
      if sp[i] > spMax * 0.5 && sc[i] < scAvg {
        found := true;
        listed := listed + [names[i]];
      }
      i := i + 1;
    }
    assert names[..|names|] == names && sc[..|names|] == sc && sp[..|names|] == sp;
  }

  /** A segment is listed exactly when it meets both conditions. */
  lemma {:induction false} BlueOceanMembers(names: seq<string>, sc: seq<real>, sp: seq<real>, scAvg: real, spMax: real, i: nat)
    requires |sc| == |names| && |sp| == |names| && i < |names|
    requires forall j :: 0 <= j < |names| && j != i ==> names[j] != names[i]
    ensures names[i] in BlueOceanList(names, sc, sp, scAvg, spMax) <==> BlueOceanCandidate(sc[i], scAvg, sp[i], spMax)
  {
    var n := |names| - 1;
    if i < n {
      BlueOceanMembers(names[..n], sc[..n], sp[..n], scAvg, spMax, i);
      assert names[n] != names[i];
    } else {
      NotBlueOcean(names[..n], sc[..n], sp[..n], scAvg, spMax, names[i]);
    }
  }

  lemma {:induction false} NotBlueOcean(names: seq<string>, sc: seq<real>, sp: seq<real>, scAvg: real, spMax: real, x: string)
    requires |sc| == |names| && |sp| == |names| && x !in names
    ensures x !in BlueOceanList(names, sc, sp, scAvg, spMax)
  {
    if names != [] {
      var n := |names| - 1;
      assert x !in names[..n];
      NotBlueOcean(names[..n], sc[..n], sp[..n], scAvg, spMax, x);
    }
  }

  /** With a positive maximum, the segment holding it is listed exactly
      when its suncream value is below the mean. */
  lemma TopSegmentListed(sc: real, scAvg: real, spMax: real)
    requires spMax > 0.0
    ensures BlueOceanCandidate(sc, scAvg, spMax, spMax) <==> sc < scAvg
  {
  }

  // ---------------------------------------------------------------------
  // Flags of the cross table: above 0.8 of the sport's maximum and suncream
  // below its mean, labelled 스키장, 스키 and 보드.

  const FLAG_LABELS: seq<string> := ["스키장", "스키", "보드"]

  predicate Flagged(sc: real, scAvg: real, sp: real, spMax: real)
  {
    sp > spMax * 0.8 && sc < scAvg
  }

  /** The flags of one segment; `sp` and `spMax` hold the three sports'
      values and maxima in the order ski resort, ski, snowboard. */
  function TableFlags(sc: real, scAvg: real, sp: seq<real>, spMax: seq<real>): (r: seq<string>)
    requires |sp| == 3 && |spMax| == 3
    ensures |r| <= 3
  {
    (if Flagged(sc, scAvg, sp[0], spMax[0]) then [FLAG_LABELS[0]] else [])
    + (if Flagged(sc, scAvg, sp[1], spMax[1]) then [FLAG_LABELS[1]] else [])
    + (if Flagged(sc, scAvg, sp[2], spMax[2]) then [FLAG_LABELS[2]] else [])
  }

  /** A sport's label is among the flags exactly when the segment is flagged
      for it; the flags are labels, each at most once. */
  lemma TableFlagsFacts(sc: real, scAvg: real, sp: seq<real>, spMax: seq<real>)
    requires |sp| == 3 && |spMax| == 3
    ensures var r := TableFlags(sc, scAvg, sp, spMax);
      && (forall k :: 0 <= k < 3 ==> (FLAG_LABELS[k] in r <==> Flagged(sc, scAvg, sp[k], spMax[k])))
      && (forall i, j :: 0 <= i < j < |r| ==> r[i] != r[j])
      && (forall x :: x in r ==> x in FLAG_LABELS)
  {
    assert FLAG_LABELS[0] != FLAG_LABELS[1] && FLAG_LABELS[1] != FLAG_LABELS[2] && FLAG_LABELS[0] != FLAG_LABELS[2] by {
      assert FLAG_LABELS[1][0] != FLAG_LABELS[2][0];
    }
  }

  /** ", ".join(flags), or "-" when there are none. */
  function FlagsText(flags: seq<string>): (r: string)
    ensures flags == [] ==> r == "-"
    ensures flags != [] ==> |r| >= |flags[0]| && r[..|flags[0]|] == flags[0]
  {
    if flags == [] then "-" else JoinComma(flags)
  }

  function JoinComma(parts: seq<string>): (r: string)
    requires parts != []
    ensures |r| >= |parts[0]| && r[..|parts[0]|] == parts[0]
  {
    if |parts| == 1 then parts[0]
    else
      var rest := JoinComma(parts[1..]);
      var r := parts[0] + ", " + rest;
      assert r[..|parts[0]|] == parts[0];
      r
  }

  /** Joining labels that are not "-" never gives "-". */
  lemma FlagsNeverDash(flags: seq<string>)
    requires flags != [] && flags[0] != "" && flags[0] != "-"
    ensures JoinComma(flags) != "-"
  {
    var r := JoinComma(flags);
    assert r[..|flags[0]|] == flags[0];
  }

  /** The cross table shows "-" exactly when the segment has no flag. */
  lemma DashIffNoFlags(sc: real, scAvg: real, sp: seq<real>, spMax: seq<real>)
    requires |sp| == 3 && |spMax| == 3
    ensures FlagsText(TableFlags(sc, scAvg, sp, spMax)) == "-" <==> TableFlags(sc, scAvg, sp, spMax) == []
  {
    var flags := TableFlags(sc, scAvg, sp, spMax);
    if flags != [] {
      TableFlagsFacts(sc, scAvg, sp, spMax);
      assert flags[0] in FLAG_LABELS;
      assert flags[0] != "" && flags[0] != "-";
      FlagsNeverDash(flags);
    }
  }

  /** A flagged segment also meets the looser blue-ocean condition whenever
      the sport's maximum is not negative. */
  lemma FlagImpliesBlueOcean(sc: real, scAvg: real, sp: real, spMax: real)
    requires spMax >= 0.0 && Flagged(sc, scAvg, sp, spMax)
    ensures BlueOceanCandidate(sc, scAvg, sp, spMax)
  {
  }

  // ---------------------------------------------------------------------
  // One sport against suncream: its mean and maximum, the blue-ocean
  // listing against half the maximum and the four quadrants against the
  // two means.

  datatype SportView = SportView(
    sport: string,
    average: real,
    maximum: real,
    listed: seq<string>,
    bothHigh: seq<string>,
    blueOcean: seq<string>,
    suncreamOnly: seq<string>,
    bothLow: seq<string>)

  function ViewOf(sport: string, names: seq<string>, sc: seq<real>, scAvg: real, sp: seq<real>): SportView
    requires |names| > 0 && |sc| == |names| && |sp| == |names|
  {
    var avg := Mean(sp);
    var mx := MaxOf(sp);
    SportView(sport, avg, mx,
      BlueOceanList(names, sc, sp, scAvg, mx),
      InQuadrant(names, sc, sp, scAvg, avg, BothHigh),
      InQuadrant(names, sc, sp, scAvg, avg, BlueOcean),
      InQuadrant(names, sc, sp, scAvg, avg, SuncreamOnly),
      InQuadrant(names, sc, sp, scAvg, avg, BothLow))
  }

  /** The body of the loop over sports: the listing loop, then the
      classification loop. */
  method BuildView(sport: string, names: seq<string>, sc: seq<real>, scAvg: real, sp: seq<real>)
    returns (v: SportView, found: bool)
    requires |names| > 0 && |sc| == |names| && |sp| == |names|
    ensures v == ViewOf(sport, names, sc, scAvg, sp)
    ensures found <==> v.listed != []
  {
    var avg := Sum(sp) / (|sp| as real);
    var mx := MaxOf(sp);
    var listed;
    listed, found := ListBlueOcean(names, sc, sp, scAvg, mx);
    var a, b, c, d := ClassifyQuadrants(names, sc, sp, scAvg, avg);
    v := SportView(sport, avg, mx, listed, a, b, c, d);
  }

  /** The sport's mean lies between its minimum and its maximum, and the
      four quadrants together hold every segment once. */
  lemma ViewFacts(sport: string, names: seq<string>, sc: seq<real>, scAvg: real, sp: seq<real>)
    requires |names| > 0 && |sc| == |names| && |sp| == |names|
    ensures var v := ViewOf(sport, names, sc, scAvg, sp);
      MinOf(sp) <= v.average <= v.maximum
      && multiset(v.bothHigh) + multiset(v.blueOcean) + multiset(v.suncreamOnly) + multiset(v.bothLow) == multiset(names)
  {
    MeanBetween(sp);
    QuadrantsPartition(names, sc, sp, scAvg, Mean(sp));
  }

  // ---------------------------------------------------------------------
  // The ranking bar: "█" repeated int(avg / 2) times.

  /** Python's `"█" * n`: empty for n <= 0. */
  function Bar(n: int): (r: string)
    ensures |r| == (if n > 0 then n else 0)
    ensures forall i :: 0 <= i < |r| ==> r[i] == '█'
    decreases if n > 0 then n else 0
  {
    if n <= 0 then "" else Bar(n - 1) + "█"
  }

  /** `int(avg_val / 2)`, as the detailed collection script writes it. */
  function DetailedBar(v: real): string
  {
    Bar(Trunc(v / 2.0))
  }

  /** `int(avg_val / 2) if avg_val > 0 else 0`, as the dataset script does. */
  function DatasetBar(v: real): string
  {
    Bar(if v > 0.0 then Trunc(v / 2.0) else 0)
  }

  /** The two scripts draw the same bar, one block per two points of
      average, and none below 2. */
  lemma BarsAgree(v: real)
    ensures DetailedBar(v) == DatasetBar(v)
    ensures v >= 0.0 ==> 2.0 * (|DetailedBar(v)| as real) <= v < 2.0 * (|DetailedBar(v)| as real) + 2.0
    ensures v < 2.0 ==> DetailedBar(v) == ""
  {
  }
}
