/** The test runner: expanding prompt files and tests into cases, running one case through its
    stages, and collecting the results of a run. The workers of Run are not modelled; the order
    in which their results reach the collect loop is a parameter. */
module Runner {
  import opened Wrappers
  import opened Text
  import opened Values
  import opened Seqs
  import opened RunResults
  import Config
  import Providers
  import Prompts
  import Assertions

  datatype Options = Options(
    parallel: int,
    updateBaseline: bool,
    filters: seq<string>,
    verbose: bool,
    ciMode: bool,
    baselinePath: string,
    commitSha: string,
    prNumber: string)

  /** One execution: a prompt file with one test of the configuration. */
  datatype TestCase = TestCase(
    name: string,
    promptFile: string,
    provider: string,
    variables: map<string, Value>,
    test: Config.Test)

  /** Everything a run consults outside the model:
      `load` is prompts.LoadFromFile, giving the loaded prompt's content or its error;
      `execute` is the parsed template's Execute; `getenv` is os.Getenv;
      `chat` is the OpenAI chat endpoint; `json` is encoding/json's Unmarshal. */
  datatype Env = Env(
    load: string -> Result<string, string>,
    execute: (string, map<string, Value>) -> Result<string, string>,
    getenv: string -> string,
    chat: (string, Providers.ChatRequest) -> Result<Providers.ChatCompletion, string>,
    json: Assertions.JsonParser)

  // ---------------------------------------------------------------------------
  // loadPrompts

  /** The first file from `from` on that does not load. */
  function FirstLoadFailure(files: seq<string>, load: string -> Result<string, string>, from: nat)
    : (r: Option<nat>)
    requires from <= |files|
    ensures r.Some? ==> from <= r.value < |files| && load(files[r.value]).Err?
    ensures forall k :: from <= k < |files| && (r.None? || k < r.value) ==> load(files[k]).Ok?
    decreases |files| - from
  {
    if from == |files| then None
    else if load(files[from]).Err? then Some(from)
    else FirstLoadFailure(files, load, from + 1)
  }

  /** loadPrompts' answer: every configured file loaded, keyed by its name, or the first failure. */
  function LoadedPrompts(files: seq<string>, load: string -> Result<string, string>)
    : (r: Result<map<string, string>, string>)
    ensures r.Ok? <==> forall k :: 0 <= k < |files| ==> load(files[k]).Ok?
    ensures r.Ok? ==> r.value.Keys == set f | f in files
    ensures r.Ok? ==> forall f :: f in r.value ==> Ok(r.value[f]) == load(f)
    ensures r.Err? ==> exists k ::
      && 0 <= k < |files| && load(files[k]).Err?
      && r.error == "failed to load prompt " + files[k] + ": " + load(files[k]).error
      && forall j :: 0 <= j < k ==> load(files[j]).Ok?
  {
    match FirstLoadFailure(files, load, 0)
    case Some(k) => Err("failed to load prompt " + files[k] + ": " + load(files[k]).error)
    case None => Ok(map f | f in files :: load(f).value)
  }

  /** loadPrompts: loads the configured files in order and stops at the first failure. */
  method LoadPrompts(files: seq<string>, load: string -> Result<string, string>)
    returns (r: Result<map<string, string>, string>)
    ensures r == LoadedPrompts(files, load)
  {
    var promptFiles: map<string, string> := map[];
    for k := 0 to |files|
      invariant FirstLoadFailure(files, load, 0) == FirstLoadFailure(files, load, k)
      invariant promptFiles == map f | f in files[..k] :: load(f).value
    {
      var prompt := load(files[k]);
      if prompt.Err? {
        return Err("failed to load prompt " + files[k] + ": " + prompt.error);
      }
      assert files[..k + 1] == files[..k] + [files[k]];
      promptFiles := promptFiles[files[k] := prompt.value];
    }
    assert files[..|files|] == files;
    return Ok(promptFiles);
  }

  // ---------------------------------------------------------------------------
  // generateTestCases and filterTestCases

  /** The provider a test runs against: its own, else the first configured one, else none. */
  function DefaultProvider(t: Config.Test, providers: seq<Config.Provider>): (p: string)
    ensures t.provider != "" ==> p == t.provider
    ensures t.provider == "" && providers != [] ==> p == providers[0].id
    ensures t.provider == "" && providers == [] ==> p == ""
  {
    if t.provider == "" && |providers| > 0 then providers[0].id else t.provider
  }

  /** The name given to a test without one: the prompt file, "_test_", and the test's index. */
  function SyntheticName(file: string, i: nat): string {
    file + "_test_" + NatToString(i)
  }

  /** A test's explicit name, or the synthetic one. */
  function CaseName(file: string, i: nat, t: Config.Test): (name: string)
    ensures t.name != "" ==> name == t.name
    ensures t.name == "" ==> name == SyntheticName(file, i)
  {
    if t.name == "" then SyntheticName(file, i) else t.name
  }

  /** Synthetic names never collide: the name determines both the file and the index, because
      an index is all digits and so cannot absorb any of "_test_". */
  lemma SyntheticNameInjective(f1: string, i1: nat, f2: string, i2: nat)
    requires SyntheticName(f1, i1) == SyntheticName(f2, i2)
    ensures f1 == f2 && i1 == i2
  {
    var d1 := NatToString(i1);
    var d2 := NatToString(i2);
    if |d1| < |d2| {
      SuffixDigitClash(f1, d1, f2, d2);
    } else if |d2| < |d1| {
      SuffixDigitClash(f2, d2, f1, d1);
    } else {
      var x := SyntheticName(f1, i1);
      assert d1 == x[|x| - |d1|..] == d2;
      assert f1 + "_test_" == x[..|x| - |d1|] == f2 + "_test_";
      assert f1 == (f1 + "_test_")[..|f1|];
      assert f2 == (f2 + "_test_")[..|f2|];
      NatToStringInjective(i1, i2);
    }
  }

  lemma SuffixDigitClash(f1: string, d1: string, f2: string, d2: string)
    requires |d1| < |d2| && AllDigits(d2)
    ensures f1 + "_test_" + d1 != f2 + "_test_" + d2
  {
    var x := f1 + "_test_" + d1;
    var y := f2 + "_test_" + d2;
    assert x[|x| - |d1| - 1] == '_';
    assert y[|y| - |d1| - 1] == d2[|d2| - |d1| - 1];
  }

  /** The case for test `i` of the configuration on prompt file `file`. */
  function CaseFor(file: string, i: nat, cfg: Config.Config): (tc: TestCase)
    requires i < |cfg.tests|
    ensures tc.promptFile == file && tc.test == cfg.tests[i]
    ensures tc.variables == cfg.tests[i].variables
    ensures tc.name == CaseName(file, i, cfg.tests[i])
    ensures tc.provider == DefaultProvider(cfg.tests[i], cfg.providers)
  {
    var t := cfg.tests[i];
    TestCase(CaseName(file, i, t), file, DefaultProvider(t, cfg.providers), t.variables, t)
  }

  /** The cases for one prompt file: every test, in configuration order. */
  function CasesFor(file: string, cfg: Config.Config): (cs: seq<TestCase>)
    ensures |cs| == |cfg.tests|
    ensures forall i :: 0 <= i < |cs| ==> cs[i] == CaseFor(file, i, cfg)
  {
    seq(|cfg.tests|, i requires 0 <= i < |cfg.tests| => CaseFor(file, i, cfg))
  }

  /** The cases for the prompt files in the order the loaded map yields them. */
  function Expansion(files: seq<string>, cfg: Config.Config): (cs: seq<TestCase>)
    ensures |cs| == |files| * |cfg.tests|
  {
    if files == [] then []
    else
      var n := |files| - 1;
      assert |files| * |cfg.tests| == n * |cfg.tests| + |cfg.tests|;
      Expansion(files[..n], cfg) + CasesFor(files[n], cfg)
  }

  /** Case p * |tests| + i is test i on the p-th file: one case per pair of file and test, with
      the tests of each file kept in configuration order. */
  lemma {:induction false} ExpansionLayout(files: seq<string>, cfg: Config.Config, p: nat, i: nat)
    requires p < |files| && i < |cfg.tests|
    ensures p * |cfg.tests| + i < |Expansion(files, cfg)|
    ensures Expansion(files, cfg)[p * |cfg.tests| + i] == CaseFor(files[p], i, cfg)
  {
    var n := |files| - 1;
    var t := |cfg.tests|;
    var front := Expansion(files[..n], cfg);
    assert |front| == n * t;
    assert p * t + i < (p + 1) * t && (p + 1) * t <= |files| * t by {
      assert (p + 1) * t == p * t + t;
      MulMonotone(p + 1, |files|, t);
    }
    if p < n {
      MulMonotone(p + 1, n, t);
      assert (p + 1) * t == p * t + t;
      ExpansionLayout(files[..n], cfg, p, i);
      assert files[..n][p] == files[p];
    } else {
      assert p * t == |front|;
    }
  }

  lemma MulMonotone(a: nat, b: nat, c: nat)
    requires a <= b
    ensures a * c <= b * c
  {
  }

  /** generateTestCases: `order` is the order in which ranging over the loaded prompts visits
      their file names, which Go leaves unspecified; each name comes exactly once. */
  method GenerateTestCases(cfg: Config.Config, promptFiles: map<string, string>, order: seq<string>)
    returns (cases: seq<TestCase>)
    requires Distinct(order) && forall f :: f in order <==> f in promptFiles
    ensures cases == Expansion(order, cfg)
    ensures |cases| == |promptFiles| * |cfg.tests|
  {
    cases := [];
    for p := 0 to |order|
      invariant cases == Expansion(order[..p], cfg)
    {
      var promptFile := order[p];
      ghost var before := cases;
      for i := 0 to |cfg.tests|
        invariant cases == before + CasesFor(promptFile, cfg)[..i]
      {
        var test := cfg.tests[i];
        var provider := test.provider;
        if provider == "" && |cfg.providers| > 0 {
          provider := cfg.providers[0].id;
        }
        var testName := test.name;
        if testName == "" {
          testName := promptFile + "_test_" + NatToString(i);
        }
        assert CasesFor(promptFile, cfg)[..i + 1] == CasesFor(promptFile, cfg)[..i] + [CaseFor(promptFile, i, cfg)];
        cases := cases + [TestCase(testName, promptFile, provider, test.variables, test)];
      }
      assert CasesFor(promptFile, cfg)[..|cfg.tests|] == CasesFor(promptFile, cfg);
      assert order[..p + 1][..p] == order[..p];
    }
    assert order[..|order|] == order;
    KeysOfOrder(promptFiles, order);
  }

  lemma KeysOfOrder(promptFiles: map<string, string>, order: seq<string>)
    requires Distinct(order) && forall f :: f in order <==> f in promptFiles
    ensures |promptFiles| == |order|
  {
    DistinctCardinality(order);
    assert promptFiles.Keys == set f | f in order;
  }

  /** filterTestCases: filtering is not implemented, so every case is kept. */
  function FilterTestCases(cases: seq<TestCase>, filters: seq<string>): (kept: seq<TestCase>)
    ensures kept == cases
  {
    cases
  }

  // ---------------------------------------------------------------------------
  // runAssertion

  /** The evaluator's answer for an assertion specification. */
  function Evaluation(a: Config.Assertion, resp: Providers.Response, json: Assertions.JsonParser)
    : Result<AssertionResult, string>
  {
    Assertions.Outcome(Assertions.NewEvaluator(a.kind), a, resp, json)
  }

  /** runAssertion's answer: the evaluator's result unchanged, or a failed result recording
      the evaluation error. */
  function AssertionOutcome(a: Config.Assertion, resp: Providers.Response, json: Assertions.JsonParser)
    : (r: AssertionResult)
    ensures Evaluation(a, resp, json).Ok? ==> r == Evaluation(a, resp, json).value
    ensures Evaluation(a, resp, json).Err? ==>
      r == AssertionResult(a.kind, Null, Null, false, 0.0, "Evaluation error: " + Evaluation(a, resp, json).error)
  {
    match Evaluation(a, resp, json)
    case Err(err) => AssertionResult(a.kind, Null, Null, false, 0.0, "Evaluation error: " + err)
    case Ok(result) => result
  }

  /** Every assertion result carries its specification's type. */
  lemma AssertionOutcomeKind(a: Config.Assertion, resp: Providers.Response, json: Assertions.JsonParser)
    ensures AssertionOutcome(a, resp, json).kind == a.kind
  {
    var e := Assertions.NewEvaluator(a.kind);
    var r := Assertions.Outcome(e, a, resp, json);
    assert r.Ok? ==> r.value.kind == Assertions.KindOf(e);
  }

  /** An assertion of unknown type always comes back failed with the evaluator's error. */
  lemma UnknownKindFails(a: Config.Assertion, resp: Providers.Response, json: Assertions.JsonParser)
    requires a.kind !in Config.ValidTypes
    ensures AssertionOutcome(a, resp, json)
         == AssertionResult(a.kind, Null, Null, false, 0.0, "Evaluation error: " + "unsupported assertion type: " + a.kind)
  {
    var e := Assertions.NewEvaluator(a.kind);
    assert e == Assertions.Unsupported(a.kind);
    assert Evaluation(a, resp, json) == Err("unsupported assertion type: " + a.kind);
    AppendAssoc("Evaluation error: ", "unsupported assertion type: ", a.kind);
  }

  method RunAssertion(a: Config.Assertion, resp: Providers.Response, json: Assertions.JsonParser)
    returns (r: AssertionResult)
    ensures r == AssertionOutcome(a, resp, json)
  {
    var evaluator := Assertions.NewEvaluator(a.kind);
    var result := Assertions.Evaluate(evaluator, a, resp, json);
    if result.Err? {
      return AssertionResult(a.kind, Null, Null, false, 0.0, "Evaluation error: " + result.error);
    }
    return result.value;
  }

  /** A configuration that Config.Validate accepts never sends an assertion to the unsupported
      evaluator, and none of its assertions can fail with an unsupported-type error. */
  lemma ValidatedNeverUnsupported(cfg: Config.Config, i: nat, j: nat)
    requires Config.Problem(cfg).None?
    requires i < |cfg.tests| && j < |cfg.tests[i].assertions|
    ensures !Assertions.NewEvaluator(cfg.tests[i].assertions[j].kind).Unsupported?
  {
    Config.ProblemIffNotWellFormed(cfg);
    assert Config.TestOk(cfg.tests[i]);
    assert Config.ValidateAssertion(cfg.tests[i].assertions[j]).None?;
  }

  // ---------------------------------------------------------------------------
  // runSingleTest

  /** The result runSingleTest starts from: failed, no response, no assertions, nothing spent. */
  function Initial(tc: TestCase): TestResult {
    TestResult(tc.name, tc.promptFile, tc.provider, tc.variables, "", [], 0.0, "failed", "")
  }

  /** The stages before the assertions, in order: load, render, provider lookup, client
      creation, completion. The response, or the error of the first stage that fails. */
  function Completion(env: Env, cfg: Config.Config, tc: TestCase): (r: Result<Providers.Response, string>)
    ensures r.Err? ==> r.error != []
    // load
    ensures env.load(tc.promptFile).Err? ==> r == Err("Failed to load prompt: " + env.load(tc.promptFile).error)
    // render, once the prompt has loaded
    ensures env.load(tc.promptFile).Ok? ==>
      var rendered := Prompts.Render(env.execute, env.load(tc.promptFile).value, tc.variables);
      rendered.Err? ==> r == Err("Failed to render prompt: " + rendered.error)
    // provider lookup, once the prompt has rendered
    ensures env.load(tc.promptFile).Ok? &&
            Prompts.Render(env.execute, env.load(tc.promptFile).value, tc.variables).Ok? ==>
      var found := Config.FindProvider(cfg.providers, tc.provider);
      found.Err? ==> r == Err("Provider not found: " + found.error)
    // client creation, once the provider is found
    ensures env.load(tc.promptFile).Ok? &&
            Prompts.Render(env.execute, env.load(tc.promptFile).value, tc.variables).Ok? &&
            Config.FindProvider(cfg.providers, tc.provider).Ok? ==>
      var client := Providers.NewClient(Config.FindProvider(cfg.providers, tc.provider).value, env.getenv);
      client.Err? ==> r == Err("Failed to create provider client: " + client.error)
    // completion, once the client exists; its response is the answer
    ensures env.load(tc.promptFile).Ok? &&
            Prompts.Render(env.execute, env.load(tc.promptFile).value, tc.variables).Ok? &&
            Config.FindProvider(cfg.providers, tc.provider).Ok? &&
            Providers.NewClient(Config.FindProvider(cfg.providers, tc.provider).value, env.getenv).Ok? ==>
      var answer := Providers.Complete(
        Providers.NewClient(Config.FindProvider(cfg.providers, tc.provider).value, env.getenv).value,
        Prompts.Render(env.execute, env.load(tc.promptFile).value, tc.variables).value, env.chat);
      (answer.Err? ==> r == Err("Failed to execute prompt: " + answer.error)) && (answer.Ok? ==> r == answer)
    // a response exactly when all five stages succeed
    ensures r.Ok? <==>
      && env.load(tc.promptFile).Ok?
      && Prompts.Render(env.execute, env.load(tc.promptFile).value, tc.variables).Ok?
      && Config.FindProvider(cfg.providers, tc.provider).Ok?
      && Providers.NewClient(Config.FindProvider(cfg.providers, tc.provider).value, env.getenv).Ok?
      && Providers.Complete(
           Providers.NewClient(Config.FindProvider(cfg.providers, tc.provider).value, env.getenv).value,
           Prompts.Render(env.execute, env.load(tc.promptFile).value, tc.variables).value, env.chat).Ok?
  {
    match env.load(tc.promptFile)
    case Err(e) => Err("Failed to load prompt: " + e)
    case Ok(content) =>
      match Prompts.Render(env.execute, content, tc.variables)
      case Err(e) => Err("Failed to render prompt: " + e)
      case Ok(rendered) =>
        match Config.FindProvider(cfg.providers, tc.provider)
        case Err(e) => Err("Provider not found: " + e)
        case Ok(providerConfig) =>
          match Providers.NewClient(providerConfig, env.getenv)
          case Err(e) => Err("Failed to create provider client: " + e)
          case Ok(client) =>
            match Providers.Complete(client, rendered, env.chat)
            case Err(e) => Err("Failed to execute prompt: " + e)
            case Ok(response) => Ok(response)
  }

  /** The results of the assertions, one per specification, in order. */
  function AssertionResults(asserts: seq<Config.Assertion>, resp: Providers.Response, json: Assertions.JsonParser)
    : (rs: seq<AssertionResult>)
    ensures |rs| == |asserts|
    ensures forall k :: 0 <= k < |rs| ==> rs[k] == AssertionOutcome(asserts[k], resp, json)
  {
    if asserts == [] then []
    else
      var n := |asserts| - 1;
      AssertionResults(asserts[..n], resp, json) + [AssertionOutcome(asserts[n], resp, json)]
  }

  predicate AllPassed(rs: seq<AssertionResult>) {
    forall k :: 0 <= k < |rs| ==> rs[k].passed
  }

  /** One more specification adds its outcome at the end. */
  lemma AssertionResultsStep(asserts: seq<Config.Assertion>, k: nat, resp: Providers.Response,
                             json: Assertions.JsonParser)
    requires k < |asserts|
    ensures AssertionResults(asserts[..k + 1], resp, json)
      == AssertionResults(asserts[..k], resp, json) + [AssertionOutcome(asserts[k], resp, json)]
  {
    assert asserts[..k + 1][..k] == asserts[..k];
  }

  lemma AllPassedSnoc(rs: seq<AssertionResult>, r: AssertionResult)
    ensures AllPassed(rs + [r]) <==> AllPassed(rs) && r.passed
  {
    assert (rs + [r])[|rs|] == r;
    assert forall k :: 0 <= k < |rs| ==> (rs + [r])[k] == rs[k];
  }

  /** runSingleTest's answer. A stage failure leaves the test failed with that stage's error, no
      response, no assertion results and no cost; otherwise every assertion is evaluated and the
      test passes exactly when all of them pass. */
  function TestOutcome(env: Env, cfg: Config.Config, tc: TestCase): TestResult
  {
    match Completion(env, cfg, tc)
    case Err(e) => Initial(tc).(error := e)
    case Ok(resp) =>
      var results := AssertionResults(tc.test.assertions, resp, env.json);
      Initial(tc).(response := resp.text, cost := resp.cost, assertions := results,
                   status := if AllPassed(results) then "passed" else "failed")
  }

  /** What runSingleTest's answer holds. These facts are a lemma rather than the function's own
      contract so that reasoning about sequences of outcomes stays cheap. */
  lemma TestOutcomeSpec(env: Env, cfg: Config.Config, tc: TestCase, r: TestResult)
    requires r == TestOutcome(env, cfg, tc)
    ensures r.name == tc.name && r.promptFile == tc.promptFile
    ensures r.provider == tc.provider && r.variables == tc.variables
    ensures r.status == "passed" || r.status == "failed"
    ensures Completion(env, cfg, tc).Err? ==>
      && r.status == "failed" && r.error == Completion(env, cfg, tc).error
      && r.response == "" && r.assertions == [] && r.cost == 0.0
    ensures Completion(env, cfg, tc).Ok? ==>
      var resp := Completion(env, cfg, tc).value;
      && r.error == "" && r.response == resp.text && r.cost == resp.cost
      && |r.assertions| == |tc.test.assertions|
      && (forall k :: 0 <= k < |r.assertions| ==>
            r.assertions[k] == AssertionOutcome(tc.test.assertions[k], resp, env.json))
      && (r.status == "passed" <==> AllPassed(r.assertions))
    ensures r.error != "" <==> Completion(env, cfg, tc).Err?
  {
  }

  /** runSingleTest: the stages in order, each failure returning at once, then the assertions
      folded into the allPassed flag. */
  method RunSingleTest(env: Env, cfg: Config.Config, tc: TestCase) returns (result: TestResult)
    ensures result == TestOutcome(env, cfg, tc)
  {
    result := Initial(tc);
    var prompt := env.load(tc.promptFile);
    if prompt.Err? {
      result := result.(error := "Failed to load prompt: " + prompt.error);
      return;
    }
    var rendered := Prompts.Render(env.execute, prompt.value, tc.variables);
    if rendered.Err? {
      result := result.(error := "Failed to render prompt: " + rendered.error);
      return;
    }
    var providerConfig := Config.GetProvider(cfg, tc.provider);
    if providerConfig.Err? {
      result := result.(error := "Provider not found: " + providerConfig.error);
      return;
    }
    var client := Providers.NewClient(providerConfig.value, env.getenv);
    if client.Err? {
      result := result.(error := "Failed to create provider client: " + client.error);
      return;
    }
    var response := Providers.Complete(client.value, rendered.value, env.chat);
    if response.Err? {
      result := result.(error := "Failed to execute prompt: " + response.error);
      return;
    }
    var resp := response.value;
    result := result.(response := resp.text, cost := resp.cost);
    var assertionResults, allPassed := RunAssertions(tc.test.assertions, resp, env.json);
    result := result.(assertions := assertionResults);
    if allPassed {
      result := result.(status := "passed");
    }
    assert Completion(env, cfg, tc) == Ok(resp);
  }

  /** The assertion loop of runSingleTest: one result per specification, in order, and the
      allPassed flag cleared by the first failure. */
  method RunAssertions(asserts: seq<Config.Assertion>, resp: Providers.Response, json: Assertions.JsonParser)
    returns (results: seq<AssertionResult>, allPassed: bool)
    ensures results == AssertionResults(asserts, resp, json)
    ensures allPassed <==> AllPassed(results)
  {
    results := [];
    allPassed := true;
    for k := 0 to |asserts|
      invariant results == AssertionResults(asserts[..k], resp, json)
      invariant allPassed <==> AllPassed(results)
    {
      var assertionResult := RunAssertion(asserts[k], resp, json);
      AssertionResultsStep(asserts, k, resp, json);
      AllPassedSnoc(results, assertionResult);
      results := results + [assertionResult];
      if !assertionResult.passed {
        allPassed := false;
      }
    }
    assert asserts[..|asserts|] == asserts;
  }

  /** Once a stage fails, nothing after it is consulted: the loader's failure decides the
      result whatever the template engine, environment, model and JSON parser would do. */
  lemma LoadFailureStopsTest(env: Env, cfg: Config.Config, tc: TestCase,
                             execute: (string, map<string, Value>) -> Result<string, string>,
                             getenv: string -> string,
                             chat: (string, Providers.ChatRequest) -> Result<Providers.ChatCompletion, string>,
                             json: Assertions.JsonParser)
    requires env.load(tc.promptFile).Err?
    ensures TestOutcome(env, cfg, tc) == TestOutcome(Env(env.load, execute, getenv, chat, json), cfg, tc)
    ensures TestOutcome(env, cfg, tc) == Initial(tc).(error := "Failed to load prompt: " + env.load(tc.promptFile).error)
  {
  }

  /** A test whose provider is not configured fails at the lookup, before any client is built
      or any completion requested, whatever the environment and the model would answer. */
  lemma LookupFailureStopsTest(env: Env, cfg: Config.Config, tc: TestCase,
                               getenv: string -> string,
                               chat: (string, Providers.ChatRequest) -> Result<Providers.ChatCompletion, string>,
                               json: Assertions.JsonParser)
    requires env.load(tc.promptFile).Ok?
    requires Prompts.Render(env.execute, env.load(tc.promptFile).value, tc.variables).Ok?
    requires forall k :: 0 <= k < |cfg.providers| ==> cfg.providers[k].id != tc.provider
    ensures TestOutcome(env, cfg, tc) == TestOutcome(Env(env.load, env.execute, getenv, chat, json), cfg, tc)
    ensures TestOutcome(env, cfg, tc)
         == Initial(tc).(error := "Provider not found: provider not found: " + tc.provider)
  {
    LookupFailure(env, cfg, tc);
    LookupFailure(Env(env.load, env.execute, getenv, chat, json), cfg, tc);
  }

  lemma LookupFailure(env: Env, cfg: Config.Config, tc: TestCase)
    requires env.load(tc.promptFile).Ok?
    requires Prompts.Render(env.execute, env.load(tc.promptFile).value, tc.variables).Ok?
    requires forall k :: 0 <= k < |cfg.providers| ==> cfg.providers[k].id != tc.provider
    ensures Completion(env, cfg, tc) == Err("Provider not found: provider not found: " + tc.provider)
  {
    var content := env.load(tc.promptFile).value;
    assert env.load(tc.promptFile) == Ok(content);
    var rendered := Prompts.Render(env.execute, content, tc.variables);
    assert rendered.Ok?;
    assert Config.FindProvider(cfg.providers, tc.provider) == Err("provider not found: " + tc.provider);
    assert "Provider not found: " + ("provider not found: " + tc.provider)
        == "Provider not found: provider not found: " + tc.provider;
  }

  /** Assertions are evaluated only after a successful completion: when the completion fails,
      the JSON parser is never consulted and no assertion result is recorded. */
  lemma CompletionFailureSkipsAssertions(env: Env, cfg: Config.Config, tc: TestCase, json: Assertions.JsonParser)
    requires Completion(env, cfg, tc).Err?
    ensures TestOutcome(env, cfg, tc) == TestOutcome(env.(json := json), cfg, tc)
    ensures TestOutcome(env, cfg, tc).assertions == []
  {
  }

  /** Every failed test either records a stage error or has an assertion that failed. */
  lemma FailedHasReason(env: Env, cfg: Config.Config, tc: TestCase)
    requires TestOutcome(env, cfg, tc).status == "failed"
    ensures var r := TestOutcome(env, cfg, tc);
      r.error != "" || exists k :: 0 <= k < |r.assertions| && !r.assertions[k].passed
  {
  }

  // ---------------------------------------------------------------------------
  // Run

  /** The outcomes of the cases, in case order. */
  function Outcomes(env: Env, cfg: Config.Config, cases: seq<TestCase>): (rs: seq<TestResult>)
    ensures |rs| == |cases|
  {
    Map(tc => TestOutcome(env, cfg, tc), cases)
  }

  /** The k-th outcome is the k-th case's. */
  lemma OutcomeAt(env: Env, cfg: Config.Config, cases: seq<TestCase>, k: nat)
    requires k < |cases|
    ensures Outcomes(env, cfg, cases)[k] == TestOutcome(env, cfg, cases[k])
  {
  }

  /** The order in which the workers' results reach the collect loop. Scheduling is not
      modelled: at each step `choices` picks which of the results still pending arrives next
      (an index out of range picks the first). */
  function Arrive(pending: seq<TestResult>, choices: seq<nat>): (arrived: seq<TestResult>)
    ensures |arrived| == |pending|
    ensures forall k :: 0 <= k < |arrived| ==> arrived[k] in pending
    decreases |pending|
  {
    if pending == [] then []
    else
      var j := if choices != [] && choices[0] < |pending| then choices[0] else 0;
      [pending[j]] + Arrive(pending[..j] + pending[j + 1..], if choices == [] then [] else choices[1..])
  }

  /** Whatever the choices, every pending result arrives exactly once. */
  lemma {:induction false} ArrivePermutes(pending: seq<TestResult>, choices: seq<nat>)
    ensures multiset(Arrive(pending, choices)) == multiset(pending)
    decreases |pending|
  {
    if pending != [] {
      var j := if choices != [] && choices[0] < |pending| then choices[0] else 0;
      var rest := pending[..j] + pending[j + 1..];
      var later := if choices == [] then [] else choices[1..];
      ArrivePermutes(rest, later);
      assert Arrive(pending, choices) == [pending[j]] + Arrive(rest, later);
      RemoveAt(pending, j);
    }
  }

  /** Every rearrangement of the pending results is an order in which they can arrive. */
  lemma {:induction false} EveryOrderArrives(pending: seq<TestResult>, order: seq<TestResult>)
    requires multiset(order) == multiset(pending)
    ensures exists choices :: Arrive(pending, choices) == order
    decreases |pending|
  {
    if pending == [] {
      assert |order| == |multiset(order)| == 0;
      assert Arrive(pending, []) == order;
    } else {
      var j := PickFirst(pending, order);
      EveryOrderArrives(pending[..j] + pending[j + 1..], order[1..]);
      var choices :| Arrive(pending[..j] + pending[j + 1..], choices) == order[1..];
      ArriveFirst(pending, j, choices, order);
    }
  }

  /** The first result of a rearrangement sits somewhere among the pending ones, and the
      rest of the rearrangement rearranges what is left once it is taken out. */
  lemma PickFirst(pending: seq<TestResult>, order: seq<TestResult>) returns (j: nat)
    requires multiset(order) == multiset(pending) && pending != []
    ensures j < |pending| && order != [] && pending[j] == order[0]
    ensures multiset(pending[..j] + pending[j + 1..]) == multiset(order[1..])
  {
    assert |order| == |multiset(order)| == |multiset(pending)| == |pending|;
    var x := order[0];
    assert x in multiset(pending);
    j :| 0 <= j < |pending| && pending[j] == x;
    RemoveAt(pending, j);
    assert order == [x] + order[1..];
    assert multiset(order[1..]) == multiset(order) - multiset{x};
  }

  /** Choosing index `j` first delivers that result and leaves the others pending. */
  lemma ArriveFirst(pending: seq<TestResult>, j: nat, choices: seq<nat>, order: seq<TestResult>)
    requires j < |pending| && order != [] && order[0] == pending[j]
    requires Arrive(pending[..j] + pending[j + 1..], choices) == order[1..]
    ensures Arrive(pending, [j] + choices) == order
  {
    assert ([j] + choices)[1..] == choices;
    assert order == [order[0]] + order[1..];
  }

  /** The collect loop: every arrived result is appended, its cost added and its status counted. */
  method Collect(arrived: seq<TestResult>, total: int, metadata: Metadata) returns (results: Results)
    ensures results == Results(total, CountStatus(arrived, "passed"), CountStatus(arrived, "failed"),
                               CountStatus(arrived, "skipped"), SumCost(arrived), arrived, metadata)
  {
    results := Results(total, 0, 0, 0, 0.0, [], metadata);
    for k := 0 to |arrived|
      invariant results == Results(total, CountStatus(arrived[..k], "passed"), CountStatus(arrived[..k], "failed"),
                                   CountStatus(arrived[..k], "skipped"), SumCost(arrived[..k]), arrived[..k], metadata)
    {
      var result := arrived[k];
      assert arrived[..k + 1][..k] == arrived[..k];
      results := results.(testResults := results.testResults + [result],
                          totalCost := results.totalCost + result.cost);
      if result.status == "passed" {
        results := results.(passed := results.passed + 1);
      } else if result.status == "failed" {
        results := results.(failed := results.failed + 1);
      } else if result.status == "skipped" {
        results := results.(skipped := results.skipped + 1);
      }
    }
    assert arrived[..|arrived|] == arrived;
  }

  /** Run's metadata; the branch is never filled in and `timestamp` is the start time. */
  function RunMetadata(options: Options, timestamp: string): Metadata {
    Metadata(timestamp, options.commitSha, options.prNumber, "", "0.1.0")
  }

  /** Run, without its workers: `order` is the order the loaded prompts are visited in and
      `choices` the order results arrive in. The counters are those of the outcomes in case
      order, whatever the arrival order. */
  method Run(cfg: Config.Config, options: Options, env: Env, timestamp: string,
             order: seq<string>, choices: seq<nat>) returns (r: Result<Results, string>)
    requires Distinct(order) && forall f :: f in order <==> f in cfg.prompts
    ensures LoadedPrompts(cfg.prompts, env.load).Err? ==>
      r == Err("failed to load prompts: " + LoadedPrompts(cfg.prompts, env.load).error)
    ensures LoadedPrompts(cfg.prompts, env.load).Ok? ==>
      var outcomes := Outcomes(env, cfg, Expansion(order, cfg));
      && r.Ok?
      && r.value.total == |outcomes| == |order| * |cfg.tests|
      && r.value.testResults == Arrive(outcomes, choices)
      && r.value.passed == CountStatus(outcomes, "passed")
      && r.value.failed == CountStatus(outcomes, "failed")
      && r.value.skipped == CountStatus(outcomes, "skipped")
      && r.value.totalCost == SumCost(outcomes)
      && r.value.metadata == RunMetadata(options, timestamp)
  {
    var metadata := RunMetadata(options, timestamp);
    var promptFiles := LoadPrompts(cfg.prompts, env.load);
    if promptFiles.Err? {
      return Err("failed to load prompts: " + promptFiles.error);
    }
    var testCases := GenerateTestCases(cfg, promptFiles.value, order);
    if |options.filters| > 0 {
      testCases := FilterTestCases(testCases, options.filters);
    }
    var outcomes := RunCases(env, cfg, testCases);
    var arrived := Arrive(outcomes, choices);
    var results := Collect(arrived, |testCases|, metadata);
    ArrivalOrderIrrelevant(outcomes, choices);
    return Ok(results);
  }

  /** The workers' part of Run, one case after another. */
  method RunCases(env: Env, cfg: Config.Config, cases: seq<TestCase>) returns (outcomes: seq<TestResult>)
    ensures outcomes == Outcomes(env, cfg, cases)
  {
    outcomes := [];
    for k := 0 to |cases|
      invariant outcomes == Outcomes(env, cfg, cases[..k])
    {
      var result := RunSingleTest(env, cfg, cases[k]);
      assert cases[..k + 1][..k] == cases[..k];
      outcomes := outcomes + [result];
    }
    assert cases[..|cases|] == cases;
  }

  /** The counters and the cost sum are the same in every arrival order. */
  lemma ArrivalOrderIrrelevant(outcomes: seq<TestResult>, choices: seq<nat>)
    ensures var arrived := Arrive(outcomes, choices);
      && CountStatus(arrived, "passed") == CountStatus(outcomes, "passed")
      && CountStatus(arrived, "failed") == CountStatus(outcomes, "failed")
      && CountStatus(arrived, "skipped") == CountStatus(outcomes, "skipped")
      && SumCost(arrived) == SumCost(outcomes)
  {
    var arrived := Arrive(outcomes, choices);
    ArrivePermutes(outcomes, choices);
    TotalsOfPermutation(arrived, outcomes, "passed");
    TotalsOfPermutation(arrived, outcomes, "failed");
    TotalsOfPermutation(arrived, outcomes, "skipped");
  }

  /** The counters of a run partition its results: every test ends passed or failed, so
      Passed + Failed is the number of cases and nothing is skipped. */
  lemma RunCountersPartition(env: Env, cfg: Config.Config, cases: seq<TestCase>)
    ensures var outcomes := Outcomes(env, cfg, cases);
      && CountStatus(outcomes, "passed") + CountStatus(outcomes, "failed") == |cases|
      && CountStatus(outcomes, "skipped") == 0
  {
    var outcomes := Outcomes(env, cfg, cases);
    forall k | 0 <= k < |outcomes| ensures outcomes[k].status == "passed" || outcomes[k].status == "failed" {
      OutcomeAt(env, cfg, cases, k);
    }
    StatusPartition(outcomes);
  }

  /** A run has failures exactly when one of its results failed. */
  lemma HasFailuresIffFailedResult(results: Results)
    requires results.failed == CountStatus(results.testResults, "failed")
    ensures results.HasFailures() <==>
      exists k :: 0 <= k < |results.testResults| && results.testResults[k].status == "failed"
  {
    CountPositive(results.testResults, "failed");
  }
}
