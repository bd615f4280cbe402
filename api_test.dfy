// The connection test script: the key check with masking, the three
// request checks and their classification, and the summary tally.
module ApiTest {
  import opened Wrappers
  import opened NaverHttp

  // ---------------------------------------------------------------------
  // Masking: key[:4] + "*" * (len(key) - 8) + key[-4:]

  /** s[:k] with Python's clamping. */
  function Head(s: string, k: nat): (r: string)
    ensures |r| == if |s| < k then |s| else k
  {
    if |s| < k then s else s[..k]
  }

  /** s[-k:] with Python's clamping (k > 0). */
  function Tail(s: string, k: nat): (r: string)
    ensures |r| == if |s| < k then |s| else k
  {
    if |s| < k then s else s[|s| - k..]
  }

  /** "*" * n: empty for n <= 0. */
  function Stars(n: int): (r: string)
    ensures |r| == if n > 0 then n else 0
    ensures forall i :: 0 <= i < |r| ==> r[i] == '*'
    decreases if n > 0 then n else 0
  {
    if n <= 0 then "" else Stars(n - 1) + "*"
  }

  function Mask(key: string): string
  {
    Head(key, 4) + Stars(|key| - 8) + Tail(key, 4)
  }

  /** A key of eight or more characters keeps its length, its first four
      and last four characters, and every character between becomes '*'. */
  lemma MaskLong(key: string)
    requires |key| >= 8
    ensures |Mask(key)| == |key|
    ensures Mask(key)[..4] == key[..4]
    ensures Mask(key)[|key| - 4..] == key[|key| - 4..]
    ensures forall i :: 4 <= i < |key| - 4 ==> Mask(key)[i] == '*'
  {
    var m := Mask(key);
    var stars := Stars(|key| - 8);
    assert m == key[..4] + stars + key[|key| - 4..];
    assert m[..4] == key[..4];
    assert m[|key| - 4..] == key[|key| - 4..];
    forall i | 4 <= i < |key| - 4
      ensures m[i] == '*'
    {
      assert m[i] == stars[i - 4];
    }
  }

  /** A shorter key gets no stars: its first-four slice, then its last-four
      slice, so characters repeat and nothing is hidden. */
  lemma MaskShort(key: string)
    requires |key| < 8
    ensures Mask(key) == Head(key, 4) + Tail(key, 4)
    ensures |key| <= 4 ==> Mask(key) == key + key
    ensures 4 < |key| ==> |Mask(key)| == 8 > |key|
  {
    assert Stars(|key| - 8) == "";
  }

  /** An example: an eight-character key is shown whole, a ten-character key
      with two stars. */
  lemma MaskExamples()
    ensures Mask("abcdefgh") == "abcdefgh"
    ensures Mask("abcdefghij") == "abcd**ghij"
    ensures Mask("abc") == "abcabc"
  {
    assert Stars(2) == Stars(1) + "*";
    assert Stars(1) == Stars(0) + "*";
    assert Stars(0) == "";
    assert Stars(-5) == "";
    assert Stars(0) == "";
  }

  // ---------------------------------------------------------------------
  // test_config

  datatype MaskedKeys = MaskedKeys(clientId: string, clientSecret: string)

  /** A key read from the environment: None when the variable is unset. */
  function Given(key: Option<string>): bool
  {
    key.Some? && key.value != ""
  }

  /** False (None) without masking when either key is missing or empty;
      otherwise both masked keys. */
  function ConfigCheck(clientId: Option<string>, clientSecret: Option<string>): (r: Option<MaskedKeys>)
    ensures r.Some? <==> Given(clientId) && Given(clientSecret)
    ensures r.Some? ==> r.value == MaskedKeys(Mask(clientId.value), Mask(clientSecret.value))
  {
    if !Given(clientId) || !Given(clientSecret) then None
    else Some(MaskedKeys(Mask(clientId.value), Mask(clientSecret.value)))
  }

  // ---------------------------------------------------------------------
  // The request checks

  /** What the checks read from a 200 reply: whether it is JSON at all, the
      length of its list (results or items; 0 when absent), and whether the
      field printed when the list is non-empty is there (results[0]['data']
      or total). */
  datatype JsonReply = NotJson | Json(listLength: nat, detailPresent: bool)

  /** The reply reads without raising. */
  predicate Readable(body: JsonReply)
  {
    body.Json? && (body.listLength > 0 ==> body.detailPresent)
  }

  datatype Outcome = Passed | AuthFailure | AccessDenied | HttpError(status: int) | Raised

  /** test_datalab_api: 200 passes, 401 and 403 have their own messages,
      any other status is a generic failure; a raised exception (a failed
      connection, or a reply that does not read) also fails. */
  function DatalabOutcome(t: Transport<JsonReply>): (o: Outcome)
    ensures o == Passed <==> t.Delivered? && t.reply.status == 200 && Readable(t.reply.body)
    ensures o == AuthFailure <==> t.Delivered? && t.reply.status == 401
    ensures o == AccessDenied <==> t.Delivered? && t.reply.status == 403
    ensures o.HttpError? <==> t.Delivered? && t.reply.status !in {200, 401, 403}
    ensures o.HttpError? ==> o.status == t.reply.status
  {
    match t
    case ConnectionFailed => Raised
    case Delivered(reply) =>
      if reply.status == 200 then (if Readable(reply.body) then Passed else Raised)
      else if reply.status == 401 then AuthFailure
      else if reply.status == 403 then AccessDenied
      else HttpError(reply.status)
  }

  /** test_shopping_api and test_blog_api: 200 passes, any other status is
      an error, an exception fails. */
  function SearchOutcome(t: Transport<JsonReply>): (o: Outcome)
    ensures o == Passed <==> t.Delivered? && t.reply.status == 200 && Readable(t.reply.body)
    ensures o.HttpError? <==> t.Delivered? && t.reply.status != 200
    ensures !o.AuthFailure? && !o.AccessDenied?
  {
    match t
    case ConnectionFailed => Raised
    case Delivered(reply) =>
      if reply.status == 200 then (if Readable(reply.body) then Passed else Raised)
      else HttpError(reply.status)
  }

  /** The value a test function returns. */
  function Returns(o: Outcome): bool
  {
    o == Passed
  }

  /** Every outcome but a pass returns False. */
  lemma OnlyPassReturnsTrue(t: Transport<JsonReply>)
    ensures Returns(DatalabOutcome(t)) <==> t.Delivered? && t.reply.status == 200 && Readable(t.reply.body)
    ensures Returns(SearchOutcome(t)) <==> t.Delivered? && t.reply.status == 200 && Readable(t.reply.body)
  {
  }

  // ---------------------------------------------------------------------
  // main: the results dict and the tally

  datatype TestResult = TestResult(name: string, passed: bool)

  /** sum(1 for v in results.values() if v) */
  function Count(results: seq<TestResult>): (n: nat)
    ensures n <= |results|
  {
    if results == [] then 0
    else Count(results[..|results| - 1]) + (if results[|results| - 1].passed then 1 else 0)
  }

  /** Every test passed exactly when the count reaches the total. */
  lemma {:induction false} CountAll(results: seq<TestResult>)
    ensures Count(results) == |results| <==> forall i :: 0 <= i < |results| ==> results[i].passed
  {
    if results != [] {
      var n := |results| - 1;
      CountAll(results[..n]);
      if forall i :: 0 <= i < |results| ==> results[i].passed {
        assert forall i :: 0 <= i < n ==> results[..n][i].passed;
      }
      if Count(results) == |results| {
        assert Count(results[..n]) == n && results[n].passed;
        forall i | 0 <= i < |results| ensures results[i].passed {
          if i < n {
            assert results[..n][i] == results[i];
          }
        }
      }
    }
  }

  method CountPassed(results: seq<TestResult>) returns (passed: nat)
    ensures passed == Count(results)
  {
    passed := 0;
    for i := 0 to |results|
      invariant passed == Count(results[..i])
    {
      assert results[..i + 1][..i] == results[..i];
      if results[i].passed {
        passed := passed + 1;
      }
    }
    assert results[..|results|] == results;
  }

  datatype Summary =
    | Stopped(results: seq<TestResult>)
    | Finished(results: seq<TestResult>, total: nat, passed: nat, allPassed: bool)

  /** The whole run: a failed key check stops it before any request;
      otherwise the three checks run and the tally is printed. */
  function SummaryOf(clientId: Option<string>, clientSecret: Option<string>,
                     datalab: Transport<JsonReply>, shopping: Transport<JsonReply>, blog: Transport<JsonReply>): Summary
  {
    if ConfigCheck(clientId, clientSecret).None? then Stopped([TestResult("config", false)])
    else
      var results := [TestResult("config", true),
                      TestResult("datalab", Returns(DatalabOutcome(datalab))),
                      TestResult("shopping", Returns(SearchOutcome(shopping))),
                      TestResult("blog", Returns(SearchOutcome(blog)))];
      Finished(results, |results|, Count(results), Count(results) == |results|)
  }

  method RunTests(clientId: Option<string>, clientSecret: Option<string>,
                  datalab: Transport<JsonReply>, shopping: Transport<JsonReply>, blog: Transport<JsonReply>)
    returns (s: Summary)
    ensures s == SummaryOf(clientId, clientSecret, datalab, shopping, blog)
  {
    var config := ConfigCheck(clientId, clientSecret);
    var results := [TestResult("config", config.Some?)];
    if config.None? {
      return Stopped(results);
    }
    results := results + [TestResult("datalab", Returns(DatalabOutcome(datalab)))];
    results := results + [TestResult("shopping", Returns(SearchOutcome(shopping)))];
    results := results + [TestResult("blog", Returns(SearchOutcome(blog)))];
    assert results == [TestResult("config", true),
                       TestResult("datalab", Returns(DatalabOutcome(datalab))),
                       TestResult("shopping", Returns(SearchOutcome(shopping))),
                       TestResult("blog", Returns(SearchOutcome(blog)))];
    var total := |results|;
    var passed := CountPassed(results);
    s := Finished(results, total, passed, passed == total);
  }

  /** A stopped run holds only the failed key check; a finished run counts
      four tests, the key check among the passes, and reports all passed
      exactly when each of the three requests passed. */
  lemma SummaryFacts(clientId: Option<string>, clientSecret: Option<string>,
                     datalab: Transport<JsonReply>, shopping: Transport<JsonReply>, blog: Transport<JsonReply>)
    ensures var s := SummaryOf(clientId, clientSecret, datalab, shopping, blog);
      (s.Stopped? <==> !(Given(clientId) && Given(clientSecret)))
      && (s.Stopped? ==> s.results == [TestResult("config", false)])
      && (s.Finished? ==>
        s.total == 4 && 1 <= s.passed <= s.total
        && (s.allPassed <==> DatalabOutcome(datalab) == Passed && SearchOutcome(shopping) == Passed && SearchOutcome(blog) == Passed))
  {
    var s := SummaryOf(clientId, clientSecret, datalab, shopping, blog);
    if s.Finished? {
      var r := s.results;
      CountAll(r);
      assert r[..3] == [r[0], r[1], r[2]] && r[..3][..2] == [r[0], r[1]];
      assert r[..3][..2][..1] == [r[0]] && [r[0]][..0] == [];
      assert Count([r[0]]) == 1;
      assert Count(r[..3][..2]) >= 1;
      assert Count(r[..3]) >= 1;
      assert s.allPassed <==> r[1].passed && r[2].passed && r[3].passed;
    }
  }
}
