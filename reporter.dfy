/** The reporters: the format chosen by name, the JUnit suite built from a run, the Markdown
    report and the console summary. */
module Reporter {
  import opened Wrappers
  import opened Text
  import opened Seqs
  import opened RunResults
  import Config
  import Diff
  import Runner

  // ---------------------------------------------------------------------------
  // New

  datatype Format = JsonReporter | JUnitReporter | HtmlReporter | MarkdownReporter | ConsoleReporter

  /** New: each of the five names selects its reporter and every other name the console one. */
  function New(format: string): (r: Format)
    ensures r == JsonReporter <==> format == "json"
    ensures r == JUnitReporter <==> format == "junit"
    ensures r == HtmlReporter <==> format == "html"
    ensures r == MarkdownReporter <==> format == "markdown"
    ensures r == ConsoleReporter <==> format !in {"json", "junit", "html", "markdown"}
  {
    match format
    case "json" => JsonReporter
    case "junit" => JUnitReporter
    case "html" => HtmlReporter
    case "markdown" => MarkdownReporter
    case "console" => ConsoleReporter
    case _ => ConsoleReporter
  }

  /** The name that selects a reporter. */
  function Name(f: Format): string {
    match f
    case JsonReporter => "json"
    case JUnitReporter => "junit"
    case HtmlReporter => "html"
    case MarkdownReporter => "markdown"
    case ConsoleReporter => "console"
  }

  /** Every reporter is reached by its own name. */
  lemma NewOfName(f: Format)
    ensures New(Name(f)) == f
  {
  }

  // ---------------------------------------------------------------------------
  // JUnitReporter.Generate

  datatype JUnitFailure = JUnitFailure(message: string, text: string)

  /** A test case; `failure` is None where Go leaves the pointer nil. */
  datatype JUnitTestCase = JUnitTestCase(name: string, className: string, failure: Option<JUnitFailure>, systemOut: string)

  datatype JUnitTestSuite = JUnitTestSuite(name: string, tests: int, failures: int, errors: int, testCases: seq<JUnitTestCase>)

  const SuiteName := "PromptGuard Tests"

  /** The messages of the failed assertions, in order. */
  function FailureMessages(asserts: seq<AssertionResult>): seq<string> {
    if asserts == [] then []
    else
      var n := |asserts| - 1;
      FailureMessages(asserts[..n]) + (if !asserts[n].passed then [asserts[n].message] else [])
  }

  /** There is a failure message exactly when some assertion failed. */
  lemma {:induction false} FailureMessagesEmpty(asserts: seq<AssertionResult>)
    ensures FailureMessages(asserts) == [] <==> forall k :: 0 <= k < |asserts| ==> asserts[k].passed
  {
    if asserts != [] {
      var n := |asserts| - 1;
      var front := asserts[..n];
      FailureMessagesEmpty(front);
      assert forall k :: 0 <= k < n ==> front[k] == asserts[k];
      assert FailureMessages(asserts) == FailureMessages(front) + (if !asserts[n].passed then [asserts[n].message] else []);
    }
  }

  /** Each failure message is a failed assertion's. */
  lemma {:induction false} FailureMessagesOfFailed(asserts: seq<AssertionResult>)
    ensures forall m :: m in FailureMessages(asserts) ==>
      exists k :: 0 <= k < |asserts| && !asserts[k].passed && asserts[k].message == m
  {
    if asserts != [] {
      var n := |asserts| - 1;
      var front := asserts[..n];
      FailureMessagesOfFailed(front);
      var tail := if !asserts[n].passed then [asserts[n].message] else [];
      assert FailureMessages(asserts) == FailureMessages(front) + tail;
      forall m | m in FailureMessages(asserts)
        ensures exists k :: 0 <= k < |asserts| && !asserts[k].passed && asserts[k].message == m
      {
        if m in FailureMessages(front) {
          var k :| 0 <= k < |front| && !front[k].passed && front[k].message == m;
          assert asserts[k] == front[k];
        } else {
          assert m in tail;
        }
      }
    }
  }

  function SystemOut(t: TestResult): string {
    "Provider: " + t.provider + "\nCost: $" + FormatFixed(t.cost, 4) + "\nResponse: " + t.response
  }

  /** A test fails with a reason when it has an error or a failed assertion. */
  predicate HasReason(t: TestResult) {
    t.error != "" || exists k :: 0 <= k < |t.assertions| && !t.assertions[k].passed
  }

  function CaseOf(t: TestResult): (c: JUnitTestCase)
    ensures c.name == t.name && c.className == t.promptFile
    ensures c.failure.Some? ==> t.status == "failed" && c.failure.value.text == c.failure.value.message
    ensures t.status == "failed" && t.error != "" ==> c.failure == Some(JUnitFailure(t.error, t.error))
    ensures t.status != "failed" ==> c.failure.None?
  {
    var messages := FailureMessages(t.assertions);
    var failure :=
      if t.status == "failed" && (|messages| > 0 || t.error != "") then
        var message := if t.error != "" then t.error else Join(messages, "; ");
        Some(JUnitFailure(message, message))
      else None;
    JUnitTestCase(t.name, t.promptFile, failure, SystemOut(t))
  }

  /** A case carries a failure exactly when its test failed with a reason; the failure's
      message, repeated as its text, is the error when there is one and otherwise the failed
      assertions' messages joined by "; ". */
  lemma CaseFailure(t: TestResult)
    ensures CaseOf(t).name == t.name && CaseOf(t).className == t.promptFile
    ensures CaseOf(t).failure.Some? <==> t.status == "failed" && HasReason(t)
    ensures CaseOf(t).failure.Some? ==>
      && CaseOf(t).failure.value.text == CaseOf(t).failure.value.message
      && (t.error != "" ==> CaseOf(t).failure.value.message == t.error)
      && (t.error == "" ==> CaseOf(t).failure.value.message == Join(FailureMessages(t.assertions), "; "))
  {
    FailureMessagesEmpty(t.assertions);
  }

  /** One case per result, in result order. */
  function Cases(rs: seq<TestResult>): (cs: seq<JUnitTestCase>)
    ensures |cs| == |rs|
  {
    if rs == [] then [] else Cases(rs[..|rs| - 1]) + [CaseOf(rs[|rs| - 1])]
  }

  function SuiteOf(results: Results): (suite: JUnitTestSuite)
    ensures suite.name == SuiteName && suite.errors == 0
    ensures suite.tests == results.total && suite.failures == results.failed
    ensures |suite.testCases| == |results.testResults|
  {
    JUnitTestSuite(SuiteName, results.total, results.failed, 0, Cases(results.testResults))
  }

  lemma {:induction false} CaseAt(rs: seq<TestResult>, k: nat)
    requires k < |rs|
    ensures Cases(rs)[k] == CaseOf(rs[k])
  {
    var n := |rs| - 1;
    if k < n {
      CaseAt(rs[..n], k);
    }
  }

  /** The suite takes its counters from the run, reports no errors and has the k-th result as
      its k-th case, named after the test and classed by its prompt file. */
  lemma SuiteFollowsResults(results: Results)
    ensures SuiteOf(results).name == SuiteName
    ensures SuiteOf(results).tests == results.total && SuiteOf(results).failures == results.failed
    ensures SuiteOf(results).errors == 0
    ensures |SuiteOf(results).testCases| == |results.testResults|
    ensures forall k :: 0 <= k < |results.testResults| ==>
      && SuiteOf(results).testCases[k] == CaseOf(results.testResults[k])
      && SuiteOf(results).testCases[k].name == results.testResults[k].name
      && SuiteOf(results).testCases[k].className == results.testResults[k].promptFile
  {
    forall k | 0 <= k < |results.testResults|
      ensures SuiteOf(results).testCases[k] == CaseOf(results.testResults[k])
    {
      CaseAt(results.testResults, k);
    }
  }

  /** The number of cases that carry a failure. */
  function FailedCases(cs: seq<JUnitTestCase>): (n: nat)
    ensures n <= |cs|
  {
    if cs == [] then 0 else FailedCases(cs[..|cs| - 1]) + (if cs[|cs| - 1].failure.Some? then 1 else 0)
  }

  /** When every failed result has a reason, the cases with a failure are as many as the
      failed results. */
  lemma {:induction false} FailedCasesCount(rs: seq<TestResult>)
    requires forall t :: t in rs && t.status == "failed" ==> HasReason(t)
    ensures FailedCases(Cases(rs)) == CountStatus(rs, "failed")
  {
    if rs != [] {
      var n := |rs| - 1;
      var front := rs[..n];
      assert forall t :: t in front ==> t in rs;
      FailedCasesCount(front);
      var cs := Cases(rs);
      assert cs[..n] == Cases(front);
      CaseFailure(rs[n]);
    }
  }

  /** A runner outcome has a failure element in JUnit exactly when it failed. */
  lemma RunnerFailureReported(env: Runner.Env, cfg: Config.Config, tc: Runner.TestCase)
    ensures var r := Runner.TestOutcome(env, cfg, tc);
      CaseOf(r).failure.Some? <==> r.status == "failed"
  {
    var r := Runner.TestOutcome(env, cfg, tc);
    if r.status == "failed" {
      Runner.FailedHasReason(env, cfg, tc);
    }
    CaseFailure(r);
  }

  /** For a run's results, in whatever order they arrive, the suite's failures attribute
      counts exactly the cases that carry a failure element. */
  lemma FailuresAttributeAgrees(env: Runner.Env, cfg: Config.Config, cases: seq<Runner.TestCase>, choices: seq<nat>)
    ensures var outcomes := Runner.Outcomes(env, cfg, cases);
      FailedCases(Cases(Runner.Arrive(outcomes, choices))) == CountStatus(outcomes, "failed")
  {
    var outcomes := Runner.Outcomes(env, cfg, cases);
    var arrived := Runner.Arrive(outcomes, choices);
    Runner.ArrivePermutes(outcomes, choices);
    forall t | t in arrived && t.status == "failed" ensures HasReason(t) {
      assert t in multiset(outcomes);
      var k :| 0 <= k < |outcomes| && outcomes[k] == t;
      Runner.OutcomeAt(env, cfg, cases, k);
      Runner.FailedHasReason(env, cfg, cases[k]);
    }
    FailedCasesCount(arrived);
    TotalsOfPermutation(arrived, outcomes, "failed");
  }

  /** The failure-message loop. */
  method CollectFailureMessages(asserts: seq<AssertionResult>) returns (messages: seq<string>)
    ensures messages == FailureMessages(asserts)
  {
    messages := [];
    for k := 0 to |asserts|
      invariant messages == FailureMessages(asserts[..k])
    {
      assert asserts[..k + 1][..k] == asserts[..k];
      if !asserts[k].passed {
        messages := messages + [asserts[k].message];
      }
    }
    assert asserts[..|asserts|] == asserts;
  }

  /** The case for one result. */
  method BuildCase(t: TestResult) returns (c: JUnitTestCase)
    ensures c == CaseOf(t)
  {
    c := JUnitTestCase(t.name, t.promptFile, None, SystemOut(t));
    if t.status == "failed" {
      var messages := CollectFailureMessages(t.assertions);
      if |messages| > 0 || t.error != "" {
        var message := Join(messages, "; ");
        if t.error != "" {
          message := t.error;
        }
        c := c.(failure := Some(JUnitFailure(message, message)));
      }
    }
  }

  /** JUnitReporter.Generate's suite, before it is marshalled. */
  method GenerateJUnit(results: Results) returns (suite: JUnitTestSuite)
    ensures suite == SuiteOf(results)
  {
    suite := JUnitTestSuite(SuiteName, results.total, results.failed, 0, []);
    var rs := results.testResults;
    for k := 0 to |rs|
      invariant suite == JUnitTestSuite(SuiteName, results.total, results.failed, 0, Cases(rs[..k]))
    {
      var testCase := BuildCase(rs[k]);
      assert rs[..k + 1][..k] == rs[..k];
      suite := suite.(testCases := suite.testCases + [testCase]);
    }
    assert rs[..|rs|] == rs;
  }

  // ---------------------------------------------------------------------------
  // MarkdownReporter.Generate

  /** ✅ for a pass and ❌ for a failure. */
  function Mark(passed: bool): string {
    if passed then "✅" else "❌"
  }

  const ReportTitle := "# PromptGuard Report\n\n"

  /** The failure analysis and a rule, written only when the run has failures. */
  function MarkdownLead(results: Results, fmt: Diff.Formatter): string
    requires results.HasFailures() ==> Diff.FailuresRenderable(results.testResults)
  {
    if results.HasFailures() then Diff.FailureDiff(results, fmt) + "\n---\n\n" else ""
  }

  /** The summary after the title; `duration` is the run's duration as %v writes it. */
  function MarkdownSummary(results: Results, duration: string): string {
    "**Generated:** " + results.metadata.timestamp + "\n"
    + (if results.metadata.commitSha != "" then "**Commit:** " + results.metadata.commitSha + "\n" else "")
    + "\n## Summary\n\n"
    + "| Metric | Value |\n"
    + "|--------|-------|\n"
    + "| Tests | " + IntToString(results.total) + " |\n"
    + "| Passed | " + IntToString(results.passed) + " |\n"
    + "| Failed | " + IntToString(results.failed) + " |\n"
    + "| Cost | $" + FormatFixed(results.totalCost, 4) + " |\n"
    + "| Duration | " + duration + " |\n"
    + "\n## Test Results\n\n"
  }

  function MarkdownAssertion(a: AssertionResult): string {
    "- " + Mark(a.passed) + " **" + a.kind + ":** " + a.message + "\n"
  }

  function MarkdownAssertions(asserts: seq<AssertionResult>): string {
    if asserts == [] then ""
    else MarkdownAssertions(asserts[..|asserts| - 1]) + MarkdownAssertion(asserts[|asserts| - 1])
  }

  /** A test's entry; `duration` is the test's duration as %v writes it. */
  function MarkdownHeading(t: TestResult): string {
    "### " + Mark(t.status != "failed") + " " + t.name + "\n\n"
  }

  function MarkdownTest(t: TestResult, duration: string): string {
    MarkdownHeading(t)
    + "- **Provider:** " + t.provider + "\n"
    + "- **Cost:** $" + FormatFixed(t.cost, 4) + "\n"
    + "- **Duration:** " + duration + "\n"
    + (if t.error != "" then "- **Error:** " + t.error + "\n" else "")
    + "\n**Assertions:**\n\n"
    + MarkdownAssertions(t.assertions)
    + "\n"
  }

  function MarkdownTests(rs: seq<TestResult>, durations: TestResult -> string): string {
    if rs == [] then ""
    else
      var t := rs[|rs| - 1];
      MarkdownTests(rs[..|rs| - 1], durations) + MarkdownTest(t, durations(t))
  }

  /** The Markdown report: the failure analysis and a rule when the run has failures, then the
      title, the summary and an entry for every test. */
  function MarkdownReport(results: Results, fmt: Diff.Formatter, duration: string,
                          durations: TestResult -> string): string
    requires results.HasFailures() ==> Diff.FailuresRenderable(results.testResults)
  {
    MarkdownLead(results, fmt) + ReportTitle + MarkdownSummary(results, duration)
    + MarkdownTests(results.testResults, durations)
  }

  /** The report leads with the failure analysis exactly when the run has failures; otherwise
      it starts with the report's own title. */
  lemma MarkdownLeadsWithAnalysis(results: Results, fmt: Diff.Formatter, duration: string,
                                  durations: TestResult -> string)
    requires results.HasFailures() ==> Diff.FailuresRenderable(results.testResults)
    ensures results.HasFailures() ==>
      HasPrefix(MarkdownReport(results, fmt, duration, durations), Diff.FailureDiff(results, fmt) + "\n---\n\n")
    ensures !results.HasFailures() ==> HasPrefix(MarkdownReport(results, fmt, duration, durations), ReportTitle)
    ensures HasPrefix(MarkdownReport(results, fmt, duration, durations), Diff.FailureHeader) <==> results.HasFailures()
  {
    if results.HasFailures() {
      MarkdownWithFailures(results, fmt, duration, durations);
    } else {
      MarkdownWithoutFailures(results, fmt, duration, durations);
    }
  }

  lemma MarkdownWithFailures(results: Results, fmt: Diff.Formatter, duration: string,
                             durations: TestResult -> string)
    requires results.HasFailures() && Diff.FailuresRenderable(results.testResults)
    ensures HasPrefix(MarkdownReport(results, fmt, duration, durations), Diff.FailureDiff(results, fmt) + "\n---\n\n")
    ensures HasPrefix(MarkdownReport(results, fmt, duration, durations), Diff.FailureHeader)
  {
    var md := MarkdownReport(results, fmt, duration, durations);
    var lead := MarkdownLead(results, fmt);
    PrefixOfConcat(lead, ReportTitle, MarkdownSummary(results, duration), MarkdownTests(results.testResults, durations));
    LeadOpens(results, fmt);
    PrefixOfPrefix(md, lead, Diff.FailureHeader);
  }

  /** With failures, the lead is the analysis and a rule, and opens with the analysis' title. */
  lemma LeadOpens(results: Results, fmt: Diff.Formatter)
    requires results.HasFailures() && Diff.FailuresRenderable(results.testResults)
    ensures MarkdownLead(results, fmt) == Diff.FailureDiff(results, fmt) + "\n---\n\n"
    ensures HasPrefix(MarkdownLead(results, fmt), Diff.FailureHeader)
  {
    var analysis := Diff.FailureDiff(results, fmt);
    Diff.FailureDiffOpens(results, fmt);
    PrefixOfConcat(analysis, "\n---\n\n", "", "");
    assert analysis + "\n---\n\n" + "" + "" == analysis + "\n---\n\n";
    PrefixOfPrefix(analysis + "\n---\n\n", analysis, Diff.FailureHeader);
  }

  lemma MarkdownWithoutFailures(results: Results, fmt: Diff.Formatter, duration: string,
                                durations: TestResult -> string)
    requires !results.HasFailures()
    ensures HasPrefix(MarkdownReport(results, fmt, duration, durations), ReportTitle)
    ensures !HasPrefix(MarkdownReport(results, fmt, duration, durations), Diff.FailureHeader)
  {
    var md := MarkdownReport(results, fmt, duration, durations);
    PrefixOfConcat("", ReportTitle, MarkdownSummary(results, duration), MarkdownTests(results.testResults, durations));
    assert "" + ReportTitle == ReportTitle;
    TitlesDiffer();
    SamePrefixChar(md, ReportTitle, Diff.FailureHeader, 2);
  }

  /** The report's title and the analysis' title differ in their third character. */
  lemma TitlesDiffer()
    ensures |ReportTitle| > 2 && |Diff.FailureHeader| > 2 && ReportTitle[2] != Diff.FailureHeader[2]
  {
    assert ReportTitle[2] == 'P';
    assert Diff.FailureHeader[2] == '🔍';
  }

  /** Two prefixes of the same text agree where both reach. */
  lemma SamePrefixChar(s: string, p: string, q: string, k: nat)
    requires HasPrefix(s, p) && k < |p| && k < |q| && p[k] != q[k]
    ensures !HasPrefix(s, q)
  {
    assert s[k] == s[..|p|][k] == p[k];
  }

  /** A test's entry is headed ❌ exactly when the test failed and ✅ otherwise. */
  lemma MarkdownTestHeading(t: TestResult, duration: string)
    ensures MarkdownTest(t, duration)[4] == '❌' <==> t.status == "failed"
    ensures MarkdownTest(t, duration)[4] == '✅' <==> t.status != "failed"
  {
    var heading := MarkdownHeading(t);
    HeadingMark(t);
    IndexInPrefix(heading, MarkdownTest(t, duration)[|heading|..], 4);
    assert MarkdownTest(t, duration) == heading + MarkdownTest(t, duration)[|heading|..];
  }

  /** The heading's fifth character is the mark. */
  lemma HeadingMark(t: TestResult)
    ensures |MarkdownHeading(t)| > 4
    ensures MarkdownHeading(t)[4] == (if t.status == "failed" then '❌' else '✅')
  {
    var mark := Mark(t.status != "failed");
    assert mark == "✅" || mark == "❌";
    AppendAssoc("### " + mark, " " , t.name + "\n\n");
  }

  lemma IndexInPrefix(p: string, s: string, k: nat)
    requires k < |p|
    ensures (p + s)[k] == p[k]
  {
  }

  /** Entries follow the results: results written after others come after their entries. */
  lemma {:induction false} MarkdownTestsAppend(a: seq<TestResult>, b: seq<TestResult>, durations: TestResult -> string)
    ensures MarkdownTests(a + b, durations) == MarkdownTests(a, durations) + MarkdownTests(b, durations)
    decreases |b|
  {
    if b == [] {
      assert a + b == a;
    } else {
      var n := |b| - 1;
      assert (a + b)[..|a + b| - 1] == a + b[..n];
      assert (a + b)[|a + b| - 1] == b[n];
      MarkdownTestsAppend(a, b[..n], durations);
      var t := b[n];
      AppendAssoc(MarkdownTests(a, durations), MarkdownTests(b[..n], durations), MarkdownTest(t, durations(t)));
    }
  }

  /** The assertion loop of one entry. */
  method WriteMarkdownAssertions(asserts: seq<AssertionResult>) returns (md: string)
    ensures md == MarkdownAssertions(asserts)
  {
    md := "";
    for k := 0 to |asserts|
      invariant md == MarkdownAssertions(asserts[..k])
    {
      assert asserts[..k + 1][..k] == asserts[..k];
      var assertionStatus := "✅";
      if !asserts[k].passed {
        assertionStatus := "❌";
      }
      md := md + ("- " + assertionStatus + " **" + asserts[k].kind + ":** " + asserts[k].message + "\n");
    }
    assert asserts[..|asserts|] == asserts;
  }

  /** One test's entry. */
  method WriteMarkdownTest(t: TestResult, duration: string) returns (md: string)
    ensures md == MarkdownTest(t, duration)
  {
    var status := "✅";
    if t.status == "failed" {
      status := "❌";
    }
    md := "### " + status + " " + t.name + "\n\n"
      + "- **Provider:** " + t.provider + "\n"
      + "- **Cost:** $" + FormatFixed(t.cost, 4) + "\n"
      + "- **Duration:** " + duration + "\n";
    if t.error != "" {
      md := md + ("- **Error:** " + t.error + "\n");
    }
    md := md + "\n**Assertions:**\n\n";
    var lines := WriteMarkdownAssertions(t.assertions);
    md := md + lines + "\n";
  }

  lemma MarkdownTestsStep(rs: seq<TestResult>, k: nat, durations: TestResult -> string)
    requires k < |rs|
    ensures MarkdownTests(rs[..k + 1], durations) == MarkdownTests(rs[..k], durations) + MarkdownTest(rs[k], durations(rs[k]))
  {
    assert rs[..k + 1][..k] == rs[..k];
  }

  /** The test loop. */
  method WriteMarkdownTests(rs: seq<TestResult>, durations: TestResult -> string) returns (md: string)
    ensures md == MarkdownTests(rs, durations)
  {
    md := "";
    for k := 0 to |rs|
      invariant md == MarkdownTests(rs[..k], durations)
    {
      var entry := WriteMarkdownTest(rs[k], durations(rs[k]));
      MarkdownTestsStep(rs, k, durations);
      md := md + entry;
    }
    assert rs[..|rs|] == rs;
  }

  /** MarkdownReporter.Generate's content, before it is written out. */
  method GenerateMarkdown(results: Results, fmt: Diff.Formatter, duration: string,
                          durations: TestResult -> string) returns (md: string)
    requires results.HasFailures() ==> Diff.FailuresRenderable(results.testResults)
    ensures md == MarkdownReport(results, fmt, duration, durations)
  {
    md := "";
    if results.HasFailures() {
      var diffContent := Diff.GenerateFailureDiff(results, fmt);
      md := diffContent + "\n---\n\n";
    }
    md := md + ReportTitle + MarkdownSummary(results, duration);
    var tests := WriteMarkdownTests(results.testResults, durations);
    md := md + tests;
  }

  // ---------------------------------------------------------------------------
  // ConsoleReporter.Generate

  function ConsoleSummary(results: Results, duration: string): string {
    "\n=== PromptGuard Test Results ===\n"
    + "Generated: " + results.metadata.timestamp + "\n"
    + (if results.metadata.commitSha != "" then "Commit: " + results.metadata.commitSha + "\n" else "")
    + "\nSummary:\n"
    + "  Tests: " + IntToString(results.total) + "\n"
    + "  Passed: " + IntToString(results.passed) + "\n"
    + "  Failed: " + IntToString(results.failed) + "\n"
    + "  Cost: $" + FormatFixed(results.totalCost, 4) + "\n"
    + "  Duration: " + duration + "\n"
  }

  function ConsoleAssertion(a: AssertionResult): string {
    "     " + a.kind + ": " + a.message + "\n"
  }

  /** The assertion loop: a line for each failed assertion. */
  function ConsoleAssertions(asserts: seq<AssertionResult>): string {
    if asserts == [] then ""
    else
      var a := asserts[|asserts| - 1];
      ConsoleAssertions(asserts[..|asserts| - 1]) + (if !a.passed then ConsoleAssertion(a) else "")
  }

  function ConsoleTest(t: TestResult): string {
    "  ❌ " + t.name + "\n"
    + (if t.error != "" then "     Error: " + t.error + "\n" else "")
    + ConsoleAssertions(t.assertions)
  }

  /** The test loop: an entry for each failed test. */
  function ConsoleTests(rs: seq<TestResult>): string {
    if rs == [] then ""
    else
      var t := rs[|rs| - 1];
      ConsoleTests(rs[..|rs| - 1]) + (if t.status == "failed" then ConsoleTest(t) else "")
  }

  /** What the console reporter prints; `duration` is the run's duration as %v writes it. */
  function ConsoleReport(results: Results, duration: string): string {
    ConsoleSummary(results, duration)
    + (if results.failed > 0 then "\nFailures:\n" + ConsoleTests(results.testResults) else "")
  }

  /** Concatenated entries: the reference the loops are compared with. */
  function Entries<T>(xs: seq<T>, entry: T -> string): string {
    if xs == [] then "" else Entries(xs[..|xs| - 1], entry) + entry(xs[|xs| - 1])
  }

  /** The test loop lists the failed tests, in order, and nothing for the others. */
  lemma {:induction false} ConsoleTestsListFailed(rs: seq<TestResult>)
    ensures ConsoleTests(rs) == Entries(Filter(rs, Diff.IsFailedTest), ConsoleTest)
  {
    if rs != [] {
      var n := |rs| - 1;
      ConsoleTestsListFailed(rs[..n]);
      FilterStep(rs, n, Diff.IsFailedTest);
      assert rs[..n + 1] == rs;
      if rs[n].status == "failed" {
        var kept := Filter(rs[..n], Diff.IsFailedTest);
        assert (kept + [rs[n]])[..|kept|] == kept;
      }
    }
  }

  /** The assertion loop lists the failed assertions, in order, and nothing for the others. */
  lemma {:induction false} ConsoleAssertionsListFailed(asserts: seq<AssertionResult>)
    ensures ConsoleAssertions(asserts) == Entries(Filter(asserts, Diff.IsFailedAssertion), ConsoleAssertion)
  {
    if asserts != [] {
      var n := |asserts| - 1;
      ConsoleAssertionsListFailed(asserts[..n]);
      FilterStep(asserts, n, Diff.IsFailedAssertion);
      assert asserts[..n + 1] == asserts;
      if !asserts[n].passed {
        var kept := Filter(asserts[..n], Diff.IsFailedAssertion);
        assert (kept + [asserts[n]])[..|kept|] == kept;
      }
    }
  }

  /** With counters taken from the results, the console prints its summary alone when no test
      failed, and otherwise the summary and an entry for each failed test, in order. */
  lemma ConsoleFailuresSection(results: Results, duration: string)
    requires results.failed == CountStatus(results.testResults, "failed")
    ensures (forall k :: 0 <= k < |results.testResults| ==> results.testResults[k].status != "failed") ==>
      ConsoleReport(results, duration) == ConsoleSummary(results, duration)
    ensures (exists k :: 0 <= k < |results.testResults| && results.testResults[k].status == "failed") ==>
      ConsoleReport(results, duration) == ConsoleSummary(results, duration) + "\nFailures:\n"
        + Entries(Filter(results.testResults, Diff.IsFailedTest), ConsoleTest)
  {
    Diff.OneSectionPerFailure(results);
    ConsoleTestsListFailed(results.testResults);
  }

  /** The assertion loop of one failed test. */
  method PrintAssertions(asserts: seq<AssertionResult>) returns (out: string)
    ensures out == ConsoleAssertions(asserts)
  {
    out := "";
    for k := 0 to |asserts|
      invariant out == ConsoleAssertions(asserts[..k])
    {
      assert asserts[..k + 1][..k] == asserts[..k];
      if !asserts[k].passed {
        out := out + ("     " + asserts[k].kind + ": " + asserts[k].message + "\n");
      }
    }
    assert asserts[..|asserts|] == asserts;
  }

  /** One failed test's entry. */
  method PrintTest(t: TestResult) returns (out: string)
    ensures out == ConsoleTest(t)
  {
    out := "  ❌ " + t.name + "\n";
    if t.error != "" {
      out := out + ("     Error: " + t.error + "\n");
    }
    var lines := PrintAssertions(t.assertions);
    out := out + lines;
  }

  /** The test loop. */
  method PrintTests(rs: seq<TestResult>) returns (out: string)
    ensures out == ConsoleTests(rs)
  {
    out := "";
    for k := 0 to |rs|
      invariant out == ConsoleTests(rs[..k])
    {
      assert rs[..k + 1][..k] == rs[..k];
      if rs[k].status == "failed" {
        var entry := PrintTest(rs[k]);
        out := out + entry;
      }
    }
    assert rs[..|rs|] == rs;
  }

  /** ConsoleReporter.Generate: the text it prints. */
  method GenerateConsole(results: Results, duration: string) returns (out: string)
    ensures out == ConsoleReport(results, duration)
  {
    out := ConsoleSummary(results, duration);
    if results.failed > 0 {
      var tests := PrintTests(results.testResults);
      out := out + ("\nFailures:\n" + tests);
    }
  }
}
