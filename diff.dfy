/** MarkdownDiffer: the failure analysis written for failed runs and the comparison of a run
    with a baseline run. */
module Diff {
  import opened Text
  import opened Values
  import opened Seqs
  import opened RunResults
  import Config
  import Providers
  import Assertions
  import Runner

  // ---------------------------------------------------------------------------
  // Inputs the package takes from libraries

  /** The kinds of segment diffmatchpatch reports. */
  datatype Operation = Insert | Delete | Equal

  datatype Segment = Segment(op: Operation, text: string)

  /** What the rendering borrows from libraries: `show` is fmt's %v of a dynamic value and
      `diffs` is DiffMain followed by DiffCleanupSemantic on (expected, actual). */
  datatype Formatter = Formatter(show: Value -> string, diffs: (string, string) -> seq<Segment>)

  predicate IsFailedTest(t: TestResult) {
    t.status == "failed"
  }

  predicate IsFailedAssertion(a: AssertionResult) {
    !a.passed
  }

  predicate NonEmpty(line: string) {
    line != ""
  }

  /** The failed results are exactly the ones CountStatus counts as "failed". */
  lemma {:induction false} FailedTestsCounted(rs: seq<TestResult>)
    ensures |Filter(rs, IsFailedTest)| == CountStatus(rs, "failed")
  {
    if rs != [] {
      FailedTestsCounted(rs[..|rs| - 1]);
    }
  }

  /** fmt's `%.1f` of the float64 quotient num / den * 100: an infinity or NaN when the
      denominator is zero. */
  function Percent(num: real, den: real): (r: string)
    ensures den == 0.0 ==> r in {"+Inf", "-Inf", "NaN"}
    ensures den != 0.0 ==> r == FormatFixed(num / den * 100.0, 1)
  {
    if den != 0.0 then FormatFixed(num / den * 100.0, 1)
    else if num > 0.0 then "+Inf"
    else if num < 0.0 then "-Inf"
    else "NaN"
  }

  // ---------------------------------------------------------------------------
  // generateStringDiff

  /** Each line written with the two-space context indent. */
  function Indented(lines: seq<string>): string {
    if lines == [] then ""
    else Indented(lines[..|lines| - 1]) + "  " + lines[|lines| - 1] + "\n"
  }

  /** The first lines of a long equal segment, without an empty first line. */
  function Leading(lines: seq<string>): seq<string> {
    if lines != [] && lines[0] == "" then lines[1..] else lines
  }

  /** The lines an equal segment shows: a segment of more than six lines keeps its first three
      (less an empty first one), an elision mark and the non-empty ones of its last three; a
      shorter one keeps its non-empty lines, or its single line whatever it holds. */
  function ContextLines(lines: seq<string>): (shown: seq<string>)
    ensures |shown| <= |lines|
    ensures |lines| == 1 ==> shown == lines
    ensures |lines| <= 6 ==> forall k :: 0 <= k < |shown| ==> shown[k] in lines
    ensures |lines| <= 6 && |lines| != 1 ==> forall k :: 0 <= k < |shown| ==> shown[k] != ""
  {
    if |lines| > 6 then Leading(lines[..3]) + ["..."] + Filter(lines[|lines| - 3..], NonEmpty)
    else if |lines| == 1 then lines
    else Filter(lines, NonEmpty)
  }

  /** A long equal segment is cut to at most seven lines, the elision mark among them, and
      every line shown comes from its first or last three. */
  lemma LongSegmentElided(lines: seq<string>)
    requires |lines| > 6
    ensures var shown := ContextLines(lines);
      && |shown| <= 7
      && shown[|Leading(lines[..3])|] == "..."
      && forall k :: 0 <= k < |shown| ==>
           shown[k] == "..." || shown[k] in lines[..3] || shown[k] in lines[|lines| - 3..]
  {
    var first := Leading(lines[..3]);
    var last := Filter(lines[|lines| - 3..], NonEmpty);
    var shown := first + ["..."] + last;
    forall k | 0 <= k < |shown|
      ensures shown[k] == "..." || shown[k] in lines[..3] || shown[k] in lines[|lines| - 3..]
    {
      if k < |first| {
        assert shown[k] == first[k];
        assert first[k] in lines[..3];
      } else if k > |first| {
        assert shown[k] == last[k - |first| - 1];
      }
    }
  }

  /** An equal segment of at most six lines none of which is empty is shown in full: its lines
      joined again give back the segment. */
  lemma ShortSegmentVerbatim(text: string)
    requires |Split(text, '\n')| <= 6
    requires forall k :: 0 <= k < |Split(text, '\n')| ==> Split(text, '\n')[k] != ""
    ensures ContextLines(Split(text, '\n')) == Split(text, '\n')
    ensures Join(ContextLines(Split(text, '\n')), "\n") == text
  {
    var lines := Split(text, '\n');
    FilterAll(lines, NonEmpty);
    JoinSplit(text, '\n');
  }

  /** What one segment contributes to the diff block. */
  function SegmentText(seg: Segment): string {
    match seg.op
    case Insert => "+ " + seg.text + "\n"
    case Delete => "- " + seg.text + "\n"
    case Equal => Indented(ContextLines(Split(seg.text, '\n')))
  }

  function SegmentsText(segs: seq<Segment>): string {
    if segs == [] then ""
    else SegmentsText(segs[..|segs| - 1]) + SegmentText(segs[|segs| - 1])
  }

  /** The diff block for `segs`. */
  function StringDiff(segs: seq<Segment>): string {
    "```diff\n" + SegmentsText(segs) + "```\n\n"
  }

  /** The context lines of an equal segment, written the way generateStringDiff's loops do. */
  method EqualContext(text: string) returns (md: string)
    ensures md == Indented(ContextLines(Split(text, '\n')))
  {
    var lines := Split(text, '\n');
    if |lines| > 6 {
      md := LeadingLines(lines);
      md := md + "  ...\n";
      IndentedSnoc(Leading(lines[..3]), "...");
      md := TrailingLines(lines[|lines| - 3..], Leading(lines[..3]) + ["..."], md);
    } else {
      md := ShortLines(lines);
    }
  }

  lemma IndentedSnoc(lines: seq<string>, line: string)
    ensures Indented(lines + [line]) == Indented(lines) + "  " + line + "\n"
  {
    assert (lines + [line])[..|lines|] == lines;
  }

  /** The first loop over a long segment: its first three lines, less an empty first one. */
  method LeadingLines(lines: seq<string>) returns (md: string)
    requires |lines| > 6
    ensures md == Indented(Leading(lines[..3]))
  {
    md := "";
    for i := 0 to 3
      invariant md == Indented(Leading(lines[..i]))
    {
      assert lines[..i + 1][..i] == lines[..i];
      if i == 0 && lines[i] == "" {
        assert Leading(lines[..1]) == [];
        continue;
      }
      assert i > 0 ==> lines[..i] != [] && lines[..i][0] == lines[0];
      assert Leading(lines[..i + 1]) == Leading(lines[..i]) + [lines[i]];
      IndentedSnoc(Leading(lines[..i]), lines[i]);
      md := md + "  " + lines[i] + "\n";
    }
  }

  /** The second loop over a long segment: the non-empty ones of its last three lines,
      written after what `shown` already holds. */
  method TrailingLines(tail: seq<string>, ghost head: seq<string>, shown: string) returns (md: string)
    requires shown == Indented(head)
    ensures md == Indented(head + Filter(tail, NonEmpty))
  {
    md := shown;
    assert head + Filter(tail[..0], NonEmpty) == head;
    for i := 0 to |tail|
      invariant md == Indented(head + Filter(tail[..i], NonEmpty))
    {
      FilterStep(tail, i, NonEmpty);
      if tail[i] == "" {
        assert !NonEmpty(tail[i]);
        continue;
      }
      ghost var kept := head + Filter(tail[..i], NonEmpty);
      AppendAssoc(head, Filter(tail[..i], NonEmpty), [tail[i]]);
      IndentedSnoc(kept, tail[i]);
      md := md + "  " + tail[i] + "\n";
    }
    assert tail[..|tail|] == tail;
  }

  /** What the loop over a short segment has kept after its first `n` lines. */
  ghost function ShortKept(lines: seq<string>, n: nat): seq<string>
    requires n <= |lines|
  {
    if |lines| == 1 then lines[..n] else Filter(lines[..n], NonEmpty)
  }

  lemma ShortStep(lines: seq<string>, i: nat)
    requires i < |lines|
    ensures lines[i] != "" || |lines| == 1 ==>
      Indented(ShortKept(lines, i + 1)) == Indented(ShortKept(lines, i)) + "  " + lines[i] + "\n"
    ensures !(lines[i] != "" || |lines| == 1) ==> ShortKept(lines, i + 1) == ShortKept(lines, i)
  {
    FilterStep(lines, i, NonEmpty);
    assert NonEmpty(lines[i]) <==> lines[i] != "";
    assert lines[..i + 1] == lines[..i] + [lines[i]];
    IndentedSnoc(ShortKept(lines, i), lines[i]);
  }

  /** The loop over a segment of at most six lines. */
  method ShortLines(lines: seq<string>) returns (md: string)
    requires |lines| <= 6
    ensures md == Indented(ContextLines(lines))
  {
    md := "";
    for i := 0 to |lines|
      invariant md == Indented(ShortKept(lines, i))
    {
      ShortStep(lines, i);
      if lines[i] != "" || |lines| == 1 {
        md := md + "  " + lines[i] + "\n";
      }
    }
    assert lines[..|lines|] == lines;
  }

  /** generateStringDiff over the segments `fmt.diffs` reports. */
  method GenerateStringDiff(expected: string, actual: string, fmt: Formatter) returns (md: string)
    ensures md == StringDiff(fmt.diffs(expected, actual))
  {
    var segs := fmt.diffs(expected, actual);
    var body := "";
    for k := 0 to |segs|
      invariant body == SegmentsText(segs[..k])
    {
      assert segs[..k + 1][..k] == segs[..k];
      var piece;
      match segs[k].op {
        case Insert => piece := "+ " + segs[k].text + "\n";
        case Delete => piece := "- " + segs[k].text + "\n";
        case Equal => piece := EqualContext(segs[k].text);
      }
      body := body + piece;
    }
    assert segs[..|segs|] == segs;
    md := "```diff\n" + body + "```\n\n";
  }

  // ---------------------------------------------------------------------------
  // generateAssertionDiff

  /** The cost case asserts that both values are float64s and panics otherwise. */
  predicate CostValuesAreFloats(a: AssertionResult) {
    a.kind == "cost" ==> a.expected.Float? && a.actual.Float?
  }

  /** The section for one failed assertion: its type and message, then what its type calls for. */
  function AssertionDiff(a: AssertionResult, fmt: Formatter): (md: string)
    requires CostValuesAreFloats(a)
    ensures HasPrefix(md, "#### ❌ `" + a.kind + "`\n\n**Message:** " + a.message + "\n\n")
  {
    var head := "#### ❌ `" + a.kind + "`\n\n**Message:** " + a.message + "\n\n";
    head + AssertionDetail(a, fmt)
  }

  function AssertionDetail(a: AssertionResult, fmt: Formatter): string
    requires CostValuesAreFloats(a)
  {
    if a.kind == "answer-relevance" then
      "**Expected Keywords/Concepts:**\n```\n" + fmt.show(a.expected) + "\n```\n\n"
      + (if a.score > 0.0 then "**Relevance Score:** " + FormatFixed(a.score, 2) + " ❌\n\n" else "")
    else if a.kind == "contains-json" then
      "**Expected JSON Structure:**\n```json\n" + fmt.show(a.expected) + "\n```\n\n"
      + "**Actual Response:**\n```json\n" + fmt.show(a.actual) + "\n```\n\n"
      + (if a.expected.Str? && a.actual.Str?
         then "**Diff:**\n" + StringDiff(fmt.diffs(a.expected.s, a.actual.s))
         else "")
    else if a.kind == "cost" then
      var expected := a.expected.f;
      var actual := a.actual.f;
      "| Metric | Expected | Actual | Status |\n|--------|----------|--------|---------|\n"
      + "| Cost | ≤ $" + FormatFixed(expected, 4) + " | $" + FormatFixed(actual, 4) + " | ❌ Over budget |\n\n"
      + "**💸 Cost overage:** " + Percent(actual - expected, expected) + "% over threshold\n\n"
    else
      "**Expected:** `" + fmt.show(a.expected) + "`\n**Actual:** `" + fmt.show(a.actual) + "`\n\n"
  }

  // ---------------------------------------------------------------------------
  // generateTestFailureDiff

  /** A result whose failed assertions can all be rendered. */
  predicate Renderable(t: TestResult) {
    forall a :: a in t.assertions && !a.passed ==> CostValuesAreFloats(a)
  }

  function AssertionDiffs(failed: seq<AssertionResult>, fmt: Formatter): string
    requires forall a :: a in failed ==> CostValuesAreFloats(a)
  {
    if failed == [] then ""
    else AssertionDiffs(failed[..|failed| - 1], fmt) + AssertionDiff(failed[|failed| - 1], fmt)
  }

  function TestHeader(t: TestResult): string {
    "## ❌ `" + t.name + "`\n\n"
    + "**📁 File:** `" + t.promptFile + "`  \n"
    + "**🤖 Provider:** `" + t.provider + "`  \n"
    + "**💰 Cost:** $" + FormatFixed(t.cost, 4) + "  \n"
    + (if t.error != "" then "\n**🚨 Error:**\n```\n" + t.error + "\n```\n\n" else "")
    + "### 🔬 Failed Assertions\n\n"
  }

  function TestFooter(t: TestResult): string {
    "### 📄 Actual Response\n\n```json\n" + t.response + "\n```\n\n"
  }

  /** A failed test's section: its header, one section per failed assertion in order (and none
      for the passed ones), then the response. */
  function TestFailureDiff(t: TestResult, fmt: Formatter): string
    requires Renderable(t)
  {
    TestHeader(t) + AssertionDiffs(Filter(t.assertions, IsFailedAssertion), fmt) + TestFooter(t)
  }

  /** One step of generateTestFailureDiff's loop. */
  lemma AssertionDiffsStep(asserts: seq<AssertionResult>, k: nat, fmt: Formatter)
    requires k < |asserts|
    requires forall b :: b in Filter(asserts[..k], IsFailedAssertion) ==> CostValuesAreFloats(b)
    requires !asserts[k].passed ==> CostValuesAreFloats(asserts[k])
    ensures forall b :: b in Filter(asserts[..k + 1], IsFailedAssertion) ==> CostValuesAreFloats(b)
    ensures AssertionDiffs(Filter(asserts[..k + 1], IsFailedAssertion), fmt) ==
      AssertionDiffs(Filter(asserts[..k], IsFailedAssertion), fmt)
      + (if !asserts[k].passed then AssertionDiff(asserts[k], fmt) else "")
  {
    FilterStep(asserts, k, IsFailedAssertion);
    if !asserts[k].passed {
      var before := Filter(asserts[..k], IsFailedAssertion);
      assert (before + [asserts[k]])[..|before|] == before;
    }
  }


  /** generateTestFailureDiff. */
  method GenerateTestFailureDiff(t: TestResult, fmt: Formatter) returns (md: string)
    requires Renderable(t)
    ensures md == TestFailureDiff(t, fmt)
  {
    md := TestHeader(t);
    var shown := FailedAssertionDiffs(t.assertions, fmt);
    md := md + shown + TestFooter(t);
  }

  /** generateTestFailureDiff's loop: a section for each failed assertion, in order. */
  method FailedAssertionDiffs(asserts: seq<AssertionResult>, fmt: Formatter) returns (shown: string)
    requires forall a :: a in asserts && !a.passed ==> CostValuesAreFloats(a)
    ensures shown == AssertionDiffs(Filter(asserts, IsFailedAssertion), fmt)
  {
    shown := "";
    for k := 0 to |asserts|
      invariant forall a :: a in Filter(asserts[..k], IsFailedAssertion) ==> CostValuesAreFloats(a)
      invariant shown == AssertionDiffs(Filter(asserts[..k], IsFailedAssertion), fmt)
    {
      shown := AddAssertionDiff(asserts, k, shown, fmt);
    }
    assert asserts[..|asserts|] == asserts;
  }

  /** The body of generateTestFailureDiff's loop: a failed assertion adds its section. */
  method AddAssertionDiff(asserts: seq<AssertionResult>, k: nat, shown: string, fmt: Formatter)
    returns (md: string)
    requires k < |asserts|
    requires forall a :: a in asserts && !a.passed ==> CostValuesAreFloats(a)
    requires forall a :: a in Filter(asserts[..k], IsFailedAssertion) ==> CostValuesAreFloats(a)
    requires shown == AssertionDiffs(Filter(asserts[..k], IsFailedAssertion), fmt)
    ensures forall a :: a in Filter(asserts[..k + 1], IsFailedAssertion) ==> CostValuesAreFloats(a)
    ensures md == AssertionDiffs(Filter(asserts[..k + 1], IsFailedAssertion), fmt)
  {
    AssertionDiffsStep(asserts, k, fmt);
    md := shown;
    if !asserts[k].passed {
      md := md + AssertionDiff(asserts[k], fmt);
    }
  }

  // ---------------------------------------------------------------------------
  // GenerateFailureDiff

  const FailureHeader := "# 🔍 PromptGuard Failure Analysis\n\n"
  const AllPassedLine := "✅ **All tests passed!** No failures to analyze.\n"

  /** Every failed result can be rendered. */
  predicate FailuresRenderable(rs: seq<TestResult>) {
    forall t :: t in rs && t.status == "failed" ==> Renderable(t)
  }

  function Sections(failed: seq<TestResult>, fmt: Formatter): string
    requires forall t :: t in failed ==> Renderable(t)
  {
    if failed == [] then ""
    else Sections(failed[..|failed| - 1], fmt) + Section(failed[|failed| - 1], fmt)
  }

  /** A failed test's section with the rule that follows it. */
  function Section(t: TestResult, fmt: Formatter): string
    requires Renderable(t)
  {
    TestFailureDiff(t, fmt) + "\n---\n\n"
  }

  function FailureSummary(results: Results): string {
    "## 📊 Summary\n\n"
    + "- **Total Tests:** " + IntToString(results.total) + "\n"
    + "- **✅ Passed:** " + IntToString(results.passed) + "\n"
    + "- **❌ Failed:** " + IntToString(results.failed) + "\n"
    + "- **💰 Total Cost:** $" + FormatFixed(results.totalCost, 4) + "\n"
  }

  function FailedLine(failed: int): string {
    "❌ **" + IntToString(failed) + " test(s) failed** - Analysis below:\n\n"
  }

  /** The failure analysis: with no failures only the header and the all-passed line; otherwise
      one section per failed result, in result order, and none for any other result. */
  function FailureDiff(results: Results, fmt: Formatter): (md: string)
    requires FailuresRenderable(results.testResults)
    ensures results.failed == 0 ==> md == FailureHeader + AllPassedLine
    ensures results.failed != 0 ==>
      md == FailureHeader + FailedLine(results.failed)
            + Sections(Filter(results.testResults, IsFailedTest), fmt) + FailureSummary(results)
  {
    if results.failed == 0 then FailureHeader + AllPassedLine
    else
      var failed := Filter(results.testResults, IsFailedTest);
      FailureHeader + FailedLine(results.failed) + Sections(failed, fmt) + FailureSummary(results)
  }

  /** One step of GenerateFailureDiff's loop. */
  lemma SectionsStep(rs: seq<TestResult>, k: nat, fmt: Formatter)
    requires k < |rs|
    requires forall u :: u in Filter(rs[..k], IsFailedTest) ==> Renderable(u)
    requires rs[k].status == "failed" ==> Renderable(rs[k])
    ensures forall u :: u in Filter(rs[..k + 1], IsFailedTest) ==> Renderable(u)
    ensures Sections(Filter(rs[..k + 1], IsFailedTest), fmt) ==
      Sections(Filter(rs[..k], IsFailedTest), fmt)
      + (if rs[k].status == "failed" then Section(rs[k], fmt) else "")
  {
    FilterStep(rs, k, IsFailedTest);
    if rs[k].status == "failed" {
      var before := Filter(rs[..k], IsFailedTest);
      assert (before + [rs[k]])[..|before|] == before;
    }
  }


  /** GenerateFailureDiff. */
  method GenerateFailureDiff(results: Results, fmt: Formatter) returns (md: string)
    requires FailuresRenderable(results.testResults)
    ensures md == FailureDiff(results, fmt)
  {
    md := FailureHeader;
    if results.failed == 0 {
      md := md + AllPassedLine;
      return;
    }
    md := md + FailedLine(results.failed);
    var sections := FailedSections(results.testResults, fmt);
    md := md + sections + FailureSummary(results);
  }

  /** GenerateFailureDiff's loop: a section for each failed result, in order. */
  method FailedSections(rs: seq<TestResult>, fmt: Formatter) returns (sections: string)
    requires FailuresRenderable(rs)
    ensures sections == Sections(Filter(rs, IsFailedTest), fmt)
  {
    sections := "";
    for k := 0 to |rs|
      invariant forall t :: t in Filter(rs[..k], IsFailedTest) ==> Renderable(t)
      invariant sections == Sections(Filter(rs[..k], IsFailedTest), fmt)
    {
      SectionsStep(rs, k, fmt);
      if rs[k].status == "failed" {
        var section := GenerateTestFailureDiff(rs[k], fmt);
        sections := sections + (section + "\n---\n\n");
      }
    }
    assert rs[..|rs|] == rs;
  }

  /** A result appended after others adds its section after theirs. */
  lemma SectionsSnoc(xs: seq<TestResult>, x: TestResult, fmt: Formatter)
    requires forall t :: t in xs ==> Renderable(t)
    requires Renderable(x)
    ensures Sections(xs + [x], fmt) == Sections(xs, fmt) + Section(x, fmt)
  {
    assert (xs + [x])[..|xs|] == xs;
  }

  /** The sections follow the results: results appended after others add their sections after
      the others' sections. */
  lemma {:induction false} SectionsAppend(a: seq<TestResult>, b: seq<TestResult>, fmt: Formatter)
    requires forall t :: t in a + b ==> Renderable(t)
    ensures Sections(a + b, fmt) == Sections(a, fmt) + Sections(b, fmt)
    decreases |b|
  {
    if b == [] {
      assert a + b == a;
    } else {
      var n := |b| - 1;
      assert a + b == (a + b[..n]) + [b[n]];
      SectionsAppend(a, b[..n], fmt);
      SectionsSnoc(a + b[..n], b[n], fmt);
      AppendAssoc(Sections(a, fmt), Sections(b[..n], fmt), Section(b[n], fmt));
    }
  }

  /** The analysis always opens with its title. */
  lemma FailureDiffOpens(results: Results, fmt: Formatter)
    requires FailuresRenderable(results.testResults)
    ensures HasPrefix(FailureDiff(results, fmt), FailureHeader)
  {
    if results.failed == 0 {
      PrefixOfConcat(FailureHeader, AllPassedLine, "", "");
      assert FailureHeader + AllPassedLine + "" + "" == FailureHeader + AllPassedLine;
    } else {
      PrefixOfConcat(FailureHeader, FailedLine(results.failed),
                     Sections(Filter(results.testResults, IsFailedTest), fmt), FailureSummary(results));
    }
  }

  /** With counters taken from the results themselves, as Run computes them, the analysis has
      exactly one section per failed result. */
  lemma OneSectionPerFailure(results: Results)
    requires results.failed == CountStatus(results.testResults, "failed")
    ensures results.failed == |Filter(results.testResults, IsFailedTest)|
    ensures results.failed == 0 <==> forall k :: 0 <= k < |results.testResults| ==> results.testResults[k].status != "failed"
  {
    FailedTestsCounted(results.testResults);
    CountPositive(results.testResults, "failed");
  }

  /** The results the runner produces never reach the panicking type assertions: the cost
      evaluator always records float64 values. */
  lemma RunnerOutcomeRenderable(env: Runner.Env, cfg: Config.Config, tc: Runner.TestCase)
    ensures Renderable(Runner.TestOutcome(env, cfg, tc))
  {
    var r := Runner.TestOutcome(env, cfg, tc);
    if Runner.Completion(env, cfg, tc).Ok? {
      var resp := Runner.Completion(env, cfg, tc).value;
      forall k | 0 <= k < |r.assertions| ensures CostValuesAreFloats(r.assertions[k]) {
        AssertionOutcomeFloats(tc.test.assertions[k], resp, env.json);
      }
    }
  }

  lemma AssertionOutcomeFloats(a: Config.Assertion, resp: Providers.Response, json: Assertions.JsonParser)
    ensures CostValuesAreFloats(Runner.AssertionOutcome(a, resp, json))
  {
    Runner.AssertionOutcomeKind(a, resp, json);
    if a.kind == "cost" {
      assert Assertions.NewEvaluator(a.kind) == Assertions.Cost;
    }
  }

  // ---------------------------------------------------------------------------
  // GenerateBaselineComparison

  /** formatChange. */
  function FormatChange(change: int): (r: string)
    ensures |r| >= 3 && r[0] == (if change > 0 then '🔺' else if change < 0 then '🔽' else '➖')
    ensures change == 0 <==> r == "➖ 0"
  {
    if change > 0 then "🔺 +" + IntToString(change)
    else if change < 0 then "🔽 " + IntToString(change)
    else "➖ 0"
  }

  /** Reads a change back from formatChange's text: the arrow gives the sign and the digits
      after the arrow, the space and the sign character give the magnitude. */
  function ChangeValue(text: string): int {
    if |text| >= 3 && AllDigits(text[3..]) then
      if text[0] == '🔺' then DigitsValue(text[3..])
      else if text[0] == '🔽' then -(DigitsValue(text[3..]) as int)
      else 0
    else 0
  }

  /** formatChange loses nothing: its text reads back as the change it was given. */
  lemma FormatChangeRoundTrip(a: int)
    ensures ChangeValue(FormatChange(a)) == a
  {
    FormatChangeParts(a);
    if a > 0 {
      ChangeValueOf("🔺 +", '🔺', a);
    } else if a < 0 {
      ChangeValueOf("🔽 -", '🔽', -a);
    } else {
      assert ChangeValue("➖ 0") == 0;
    }
  }

  /** An arrow, two more characters and a numeral read back as the signed number. */
  lemma ChangeValueOf(prefix: string, arrow: char, n: nat)
    requires |prefix| == 3 && prefix[0] == arrow
    ensures arrow == '🔺' ==> ChangeValue(prefix + NatToString(n)) == n
    ensures arrow == '🔽' ==> ChangeValue(prefix + NatToString(n)) == -(n as int)
  {
    NatToStringRoundTrip(n);
    assert (prefix + NatToString(n))[3..] == NatToString(n);
  }

  /** Different changes are written differently. */
  lemma FormatChangeInjective(a: int, b: int)
    requires FormatChange(a) == FormatChange(b)
    ensures a == b
  {
    FormatChangeRoundTrip(a);
    FormatChangeRoundTrip(b);
  }

  /** The arrow of formatChange gives the sign and the rest the magnitude's digits. */
  lemma FormatChangeParts(a: int)
    ensures FormatChange(a)[0] == (if a > 0 then '🔺' else if a < 0 then '🔽' else '➖')
    ensures a > 0 ==> FormatChange(a) == "🔺 +" + NatToString(a)
    ensures a < 0 ==> FormatChange(a) == "🔽 -" + NatToString(-a)
    ensures a == 0 ==> FormatChange(a) == "➖ 0"
  {
    if a < 0 {
      var n := NatToString(-a);
      AppendAssoc("🔽 ", "-", n);
      assert "🔽 " + "-" == "🔽 -";
    }
  }

  /** A change and its opposite are written with opposite arrows and the same digits. */
  lemma FormatChangeNegate(n: int)
    requires n > 0
    ensures FormatChange(n) == "🔺 +" + NatToString(n)
    ensures FormatChange(-n) == "🔽 -" + NatToString(n)
  {
    FormatChangeParts(n);
    FormatChangeParts(-n);
  }

  /** formatCostChange: changes within a hundredth of a cent either way show as zero. */
  function FormatCostChange(change: real): (r: string)
    ensures |r| >= 3 && r[0] == (if change > 0.0001 then '🔺' else if change < -0.0001 then '🔽' else '➖')
    ensures -0.0001 <= change <= 0.0001 <==> r == "➖ $0.0000"
  {
    if change > 0.0001 then "🔺 +$" + FormatFixed(change, 4)
    else if change < -0.0001 then "🔽 -$" + FormatFixed(-change, 4)
    else "➖ $0.0000"
  }

  /** Outside the dead band an increase and the equal decrease show the same amount with opposite
      arrows; inside it both show as no change. */
  lemma FormatCostChangeMirror(c: real)
    requires c >= 0.0
    ensures c > 0.0001 ==>
      FormatCostChange(c) == "🔺 +$" + FormatFixed(c, 4) && FormatCostChange(-c) == "🔽 -$" + FormatFixed(c, 4)
    ensures c <= 0.0001 ==> FormatCostChange(c) == FormatCostChange(-c) == "➖ $0.0000"
  {
  }

  datatype Trend = Regression | Improvement | Steady

  /** The regression check compares the failure counts only. */
  function TrendOf(current: Results, baseline: Results): (t: Trend)
    ensures t == Regression <==> current.failed > baseline.failed
    ensures t == Improvement <==> current.failed < baseline.failed
  {
    if current.failed > baseline.failed then Regression
    else if current.failed < baseline.failed then Improvement
    else Steady
  }

  function TrendNotice(t: Trend): (notice: string)
    ensures notice == "" <==> t == Steady
  {
    match t
    case Regression => "\n🚨 **REGRESSION DETECTED** - More tests failing than baseline!\n\n"
    case Improvement => "\n✅ **IMPROVEMENT** - Fewer test failures than baseline!\n\n"
    case Steady => ""
  }

  /** The cost alert fires on increases above a tenth of a cent only. */
  predicate CostAlert(costChange: real) {
    costChange > 0.001
  }

  function SummaryTable(current: Results, baseline: Results): string {
    "# 📊 Baseline Comparison Report\n\n"
    + "## 📈 Summary Changes\n\n"
    + "| Metric | Baseline | Current | Change |\n"
    + "|--------|----------|---------|--------|\n"
    + "| Passed | " + IntToString(baseline.passed) + " | " + IntToString(current.passed) + " | "
    + FormatChange(current.passed - baseline.passed) + " |\n"
    + "| Failed | " + IntToString(baseline.failed) + " | " + IntToString(current.failed) + " | "
    + FormatChange(current.failed - baseline.failed) + " |\n"
    + "| Cost | $" + FormatFixed(baseline.totalCost, 4) + " | $" + FormatFixed(current.totalCost, 4) + " | "
    + FormatCostChange(current.totalCost - baseline.totalCost) + " |\n"
  }

  function CostAlertLine(current: Results, baseline: Results): (line: string)
    ensures line != "" <==> CostAlert(current.totalCost - baseline.totalCost)
    ensures line != "" ==>
      HasPrefix(line, "💸 **COST ALERT** - Cost increased by $" + FormatFixed(current.totalCost - baseline.totalCost, 4))
  {
    var costChange := current.totalCost - baseline.totalCost;
    if CostAlert(costChange) then
      "💸 **COST ALERT** - Cost increased by $" + FormatFixed(costChange, 4)
      + " (" + Percent(costChange, baseline.totalCost) + "%)\n\n"
    else ""
  }

  /** GenerateBaselineComparison: the table of changes (current minus baseline), then the
      regression or improvement notice, then the cost alert. */
  function BaselineComparison(current: Results, baseline: Results): (r: string)
    ensures HasPrefix(r, SummaryTable(current, baseline) + TrendNotice(TrendOf(current, baseline)))
    ensures TrendOf(current, baseline) == Steady && !CostAlert(current.totalCost - baseline.totalCost) ==>
      r == SummaryTable(current, baseline)
  {
    var head := SummaryTable(current, baseline) + TrendNotice(TrendOf(current, baseline));
    var alert := CostAlertLine(current, baseline);
    assert (head + alert)[..|head|] == head;
    head + alert
  }

  /** The notice agrees with the Failed row: a regression is reported exactly when that row's
      change has the up arrow, an improvement exactly when it has the down arrow. */
  lemma TrendMatchesFailedArrow(current: Results, baseline: Results)
    ensures TrendOf(current, baseline) == Regression <==> FormatChange(current.failed - baseline.failed)[0] == '🔺'
    ensures TrendOf(current, baseline) == Improvement <==> FormatChange(current.failed - baseline.failed)[0] == '🔽'
    ensures TrendOf(current, baseline) == Steady <==> FormatChange(current.failed - baseline.failed) == "➖ 0"
  {
  }

  /** Swapping the two runs swaps regression and improvement. */
  lemma TrendSwap(current: Results, baseline: Results)
    ensures TrendOf(current, baseline) == Regression <==> TrendOf(baseline, current) == Improvement
    ensures TrendOf(current, baseline) == Steady <==> TrendOf(baseline, current) == Steady
  {
  }

  /** Whenever the cost alert fires the Cost row shows an increase; a cost that rises without
      crossing the alert threshold is still shown as an increase. */
  lemma CostAlertShowsIncrease(current: Results, baseline: Results)
    ensures CostAlert(current.totalCost - baseline.totalCost) ==>
      FormatCostChange(current.totalCost - baseline.totalCost)[0] == '🔺'
    ensures !CostAlert(0.0005) && FormatCostChange(0.0005)[0] == '🔺'
  {
  }

  /** A cost alert against a baseline that cost nothing reports an infinite percentage. */
  lemma CostAlertFromZeroBaseline(current: Results, baseline: Results)
    requires baseline.totalCost == 0.0 && current.totalCost > 0.001
    ensures CostAlertLine(current, baseline) ==
      "💸 **COST ALERT** - Cost increased by $" + FormatFixed(current.totalCost, 4) + " (+Inf%)\n\n"
  {
  }

  /** A run compared with itself shows no change anywhere and no notice. */
  lemma SelfComparisonQuiet(r: Results)
    ensures BaselineComparison(r, r) == SummaryTable(r, r)
    ensures FormatChange(r.passed - r.passed) == "➖ 0" && FormatCostChange(r.totalCost - r.totalCost) == "➖ $0.0000"
  {
  }
}
