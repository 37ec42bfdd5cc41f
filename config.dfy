/** The configuration records of promptguard.yaml and the checks Config.Validate makes. */
module Config {
  import opened Wrappers
  import opened Text
  import opened Values
  import opened Seqs

  datatype Provider = Provider(id: string, config: map<string, Value>)

  /** One `assert` entry of a test; `kind` is the YAML `type` field, `value` is Null when absent. */
  datatype Assertion = Assertion(kind: string, value: Value, threshold: real, required: bool)

  /** One test; `assertions` is the YAML `assert` list. */
  datatype Test = Test(
    name: string,
    description: string,
    variables: map<string, Value>,
    assertions: seq<Assertion>,
    provider: string)

  datatype Settings = Settings(costBudget: real, timeout: int, maxRetries: int, cacheResults: bool)

  datatype Config = Config(
    description: string,
    prompts: seq<string>,
    providers: seq<Provider>,
    tests: seq<Test>,
    settings: Settings)

  /** The assertion kinds Assertion.Validate accepts. */
  const ValidTypes: set<string> :=
    {"answer-relevance", "contains-json", "cost", "llm-rubric", "closed-qa", "toxicity", "jailbreak"}

  // ---------------------------------------------------------------------------
  // Assertion.Validate

  datatype AssertionError =
    | InvalidType(kind: string)
    | NonPositiveCostThreshold
    | RelevanceThresholdOutOfRange
  {
    function Message(): string {
      match this
      case InvalidType(k) => "invalid assertion type: " + k
      case NonPositiveCostThreshold => "cost assertion requires positive threshold"
      case RelevanceThresholdOutOfRange => "answer-relevance threshold must be between 0 and 1"
    }
  }

  /** Assertion.Validate: the kind must be one of the seven; a cost assertion needs a positive
      threshold and an answer-relevance one a threshold in [0, 1]; no other kind has a threshold check. */
  function ValidateAssertion(a: Assertion): (r: Option<AssertionError>)
    ensures r.None? <==>
      && a.kind in ValidTypes
      && (a.kind == "cost" ==> a.threshold > 0.0)
      && (a.kind == "answer-relevance" ==> 0.0 <= a.threshold <= 1.0)
    ensures r == Some(InvalidType(a.kind)) <==> a.kind !in ValidTypes
    ensures r == Some(NonPositiveCostThreshold) <==> a.kind == "cost" && a.threshold <= 0.0
    ensures r == Some(RelevanceThresholdOutOfRange) <==>
      a.kind == "answer-relevance" && (a.threshold < 0.0 || a.threshold > 1.0)
  {
    if a.kind !in ValidTypes then Some(InvalidType(a.kind))
    else if a.kind == "cost" && a.threshold <= 0.0 then Some(NonPositiveCostThreshold)
    else if a.kind == "answer-relevance" && (a.threshold < 0.0 || a.threshold > 1.0) then
      Some(RelevanceThresholdOutOfRange)
    else None
  }

  // ---------------------------------------------------------------------------
  // Config.Validate

  datatype ConfigError =
    | NoPrompts
    | NoProviders
    | NoTests
    | ProviderMissingId
    | DuplicateProviderId(id: string)
    | TestWithoutAssertions(test: nat)
    | InvalidAssertion(test: nat, index: nat, cause: AssertionError)
  {
    function Message(): string {
      match this
      case NoPrompts => "no prompt files specified"
      case NoProviders => "no providers specified"
      case NoTests => "no tests specified"
      case ProviderMissingId => "provider missing ID"
      case DuplicateProviderId(id) => "duplicate provider ID: " + id
      case TestWithoutAssertions(i) => "test " + NatToString(i) + " has no assertions"
      case InvalidAssertion(i, j, e) =>
        "test " + NatToString(i) + ", assertion " + NatToString(j) + ": " + e.Message()
    }
  }

  /** The provider at `k` has an empty ID or repeats the ID of an earlier provider. */
  predicate BadProviderAt(ps: seq<Provider>, k: nat)
    requires k < |ps|
  {
    ps[k].id == "" || exists j | 0 <= j < k :: ps[j].id == ps[k].id
  }

  /** The first provider from `from` on that fails the ID checks. */
  function FirstBadProvider(ps: seq<Provider>, from: nat): (r: Option<nat>)
    requires from <= |ps|
    ensures r.Some? ==> from <= r.value < |ps| && BadProviderAt(ps, r.value)
    ensures forall k :: from <= k < |ps| && (r.None? || k < r.value) ==> !BadProviderAt(ps, k)
    decreases |ps| - from
  {
    if from == |ps| then None
    else if BadProviderAt(ps, from) then Some(from)
    else FirstBadProvider(ps, from + 1)
  }

  function ProviderError(ps: seq<Provider>, k: nat): ConfigError
    requires k < |ps|
  {
    if ps[k].id == "" then ProviderMissingId else DuplicateProviderId(ps[k].id)
  }

  /** The first assertion from `from` on that Assertion.Validate rejects. */
  function FirstInvalidAssertion(asserts: seq<Assertion>, from: nat): (r: Option<nat>)
    requires from <= |asserts|
    ensures r.Some? ==> from <= r.value < |asserts| && ValidateAssertion(asserts[r.value]).Some?
    ensures forall j :: from <= j < |asserts| && (r.None? || j < r.value) ==>
      ValidateAssertion(asserts[j]).None?
    decreases |asserts| - from
  {
    if from == |asserts| then None
    else if ValidateAssertion(asserts[from]).Some? then Some(from)
    else FirstInvalidAssertion(asserts, from + 1)
  }

  /** A test with at least one assertion, all of them valid. */
  predicate TestOk(t: Test) {
    t.assertions != [] && forall j :: 0 <= j < |t.assertions| ==> ValidateAssertion(t.assertions[j]).None?
  }

  /** The first problem among the tests from index `from` on, in the order the checks are made. */
  function TestsProblem(ts: seq<Test>, from: nat): (r: Option<ConfigError>)
    requires from <= |ts|
    ensures r.None? <==> forall i :: from <= i < |ts| ==> TestOk(ts[i])
    ensures r.Some? ==> r.value.TestWithoutAssertions? || r.value.InvalidAssertion?
    decreases |ts| - from
  {
    if from == |ts| then None
    else if ts[from].assertions == [] then Some(TestWithoutAssertions(from))
    else match FirstInvalidAssertion(ts[from].assertions, 0)
      case Some(j) => Some(InvalidAssertion(from, j, ValidateAssertion(ts[from].assertions[j]).value))
      case None => TestsProblem(ts, from + 1)
  }

  /** What Config.Validate reports: the first check that fails, or None. */
  function Problem(c: Config): Option<ConfigError> {
    if c.prompts == [] then Some(NoPrompts)
    else if c.providers == [] then Some(NoProviders)
    else if c.tests == [] then Some(NoTests)
    else match FirstBadProvider(c.providers, 0)
      case Some(k) => Some(ProviderError(c.providers, k))
      case None => TestsProblem(c.tests, 0)
  }

  /** The provider IDs in configuration order. */
  function ProviderIds(ps: seq<Provider>): (ids: seq<string>)
    ensures |ids| == |ps| && forall k :: 0 <= k < |ps| ==> ids[k] == ps[k].id
  {
    seq(|ps|, k requires 0 <= k < |ps| => ps[k].id)
  }

  /** Everything Config.Validate checks, stated declaratively. */
  predicate WellFormed(c: Config) {
    && c.prompts != []
    && c.providers != []
    && c.tests != []
    && (forall k :: 0 <= k < |c.providers| ==> c.providers[k].id != "")
    && Distinct(ProviderIds(c.providers))
    && (forall i :: 0 <= i < |c.tests| ==> TestOk(c.tests[i]))
  }

  /** Validate accepts exactly the well-formed configurations. */
  lemma ProblemIffNotWellFormed(c: Config)
    ensures Problem(c).None? <==> WellFormed(c)
  {
    var ps := c.providers;
    var ids := ProviderIds(ps);
    if c.prompts != [] && c.providers != [] && c.tests != [] {
      var bad := FirstBadProvider(ps, 0);
      if bad.None? {
        forall i, j | 0 <= i < j < |ps| ensures ids[i] != ids[j] {
          assert !BadProviderAt(ps, j);
          assert ids[i] == ps[i].id && ids[j] == ps[j].id;
        }
        assert Distinct(ids);
        forall k | 0 <= k < |ps| ensures ps[k].id != "" {
          assert !BadProviderAt(ps, k);
        }
      } else {
        var k := bad.value;
        if ps[k].id != "" {
          var j :| 0 <= j < k && ps[j].id == ps[k].id;
          assert ids[j] == ids[k];
        }
      }
    }
  }

  /** A duplicate ID is reported at the first provider that repeats an earlier one, and only
      when every provider before it has a fresh, non-empty ID. */
  lemma DuplicateReportedFirst(c: Config, id: string)
    requires Problem(c) == Some(DuplicateProviderId(id))
    ensures exists k ::
      && 0 <= k < |c.providers| && c.providers[k].id == id && id != ""
      && (exists j :: 0 <= j < k && c.providers[j].id == id)
      && forall m :: 0 <= m < k ==> !BadProviderAt(c.providers, m)
  {
    assert c.prompts != [] && c.providers != [] && c.tests != [];
    var bad := FirstBadProvider(c.providers, 0);
    assert bad.Some?;
    var k := bad.value;
    assert c.providers[k].id == id;
  }

  /** An invalid assertion is reported with the indices of the first test and, within it,
      the first assertion that Assertion.Validate rejects, and with that rejection as cause. */
  lemma InvalidAssertionReportedFirst(c: Config, i: nat, j: nat, e: AssertionError)
    requires Problem(c) == Some(InvalidAssertion(i, j, e))
    ensures i < |c.tests| && j < |c.tests[i].assertions|
    ensures ValidateAssertion(c.tests[i].assertions[j]) == Some(e)
    ensures forall m :: 0 <= m < j ==> ValidateAssertion(c.tests[i].assertions[m]).None?
    ensures forall t :: 0 <= t < i ==> TestOk(c.tests[t])
  {
    InvalidAssertionFrom(c.tests, 0, i, j, e);
  }

  lemma {:induction false} InvalidAssertionFrom(ts: seq<Test>, from: nat, i: nat, j: nat, e: AssertionError)
    requires from <= |ts|
    requires TestsProblem(ts, from) == Some(InvalidAssertion(i, j, e))
    ensures from <= i < |ts| && j < |ts[i].assertions|
    ensures ValidateAssertion(ts[i].assertions[j]) == Some(e)
    ensures forall m :: 0 <= m < j ==> ValidateAssertion(ts[i].assertions[m]).None?
    ensures forall t :: from <= t < i ==> TestOk(ts[t])
    decreases |ts| - from
  {
    if ts[from].assertions != [] && FirstInvalidAssertion(ts[from].assertions, 0).None? {
      InvalidAssertionFrom(ts, from + 1, i, j, e);
    }
  }

  method Validate(c: Config) returns (err: Option<ConfigError>)
    ensures err == Problem(c)
  {
    if |c.prompts| == 0 {
      return Some(NoPrompts);
    }
    if |c.providers| == 0 {
      return Some(NoProviders);
    }
    if |c.tests| == 0 {
      return Some(NoTests);
    }

    var providerIds: set<string> := {};
    var i := 0;
    while i < |c.providers|
      invariant 0 <= i <= |c.providers|
      invariant providerIds == set j | 0 <= j < i :: c.providers[j].id
      invariant FirstBadProvider(c.providers, 0) == FirstBadProvider(c.providers, i)
    {
      var provider := c.providers[i];
      if provider.id == "" {
        return Some(ProviderMissingId);
      }
      if provider.id in providerIds {
        return Some(DuplicateProviderId(provider.id));
      }
      providerIds := providerIds + {provider.id};
      i := i + 1;
    }

    var t := 0;
    while t < |c.tests|
      invariant 0 <= t <= |c.tests|
      invariant TestsProblem(c.tests, 0) == TestsProblem(c.tests, t)
    {
      var test := c.tests[t];
      if |test.assertions| == 0 {
        return Some(TestWithoutAssertions(t));
      }
      var j := 0;
      while j < |test.assertions|
        invariant 0 <= j <= |test.assertions|
        invariant FirstInvalidAssertion(test.assertions, 0) == FirstInvalidAssertion(test.assertions, j)
      {
        var e := ValidateAssertion(test.assertions[j]);
        if e.Some? {
          return Some(InvalidAssertion(t, j, e.value));
        }
        j := j + 1;
      }
      t := t + 1;
    }
    return None;
  }

  // ---------------------------------------------------------------------------
  // Config.GetProvider

  /** GetProvider's answer: the first provider whose ID equals `id`, else the not-found error. */
  function FindProvider(ps: seq<Provider>, id: string): (r: Result<Provider, string>)
    ensures r.Ok? ==> exists k ::
      && 0 <= k < |ps| && ps[k] == r.value && r.value.id == id
      && forall j :: 0 <= j < k ==> ps[j].id != id
    ensures r.Err? ==>
      && r.error == "provider not found: " + id
      && forall k :: 0 <= k < |ps| ==> ps[k].id != id
  {
    if ps == [] then Err("provider not found: " + id)
    else if ps[0].id == id then Ok(ps[0])
    else
      var r := FindProvider(ps[1..], id);
      assert r.Ok? ==> exists k ::
        && 0 <= k < |ps| && ps[k] == r.value && r.value.id == id
        && forall j :: 0 <= j < k ==> ps[j].id != id
      by {
        if r.Ok? {
          var k :| 0 <= k < |ps[1..]| && ps[1..][k] == r.value && r.value.id == id
            && forall j :: 0 <= j < k ==> ps[1..][j].id != id;
          assert ps[k + 1] == r.value;
          assert forall j :: 0 <= j < k + 1 ==> ps[j].id != id by {
            forall j | 0 <= j < k + 1 ensures ps[j].id != id {
              if j > 0 {
                assert ps[j] == ps[1..][j - 1];
              }
            }
          }
        }
      }
      r
  }

  method GetProvider(c: Config, id: string) returns (r: Result<Provider, string>)
    ensures r == FindProvider(c.providers, id)
  {
    var i := 0;
    while i < |c.providers|
      invariant 0 <= i <= |c.providers|
      invariant FindProvider(c.providers[i..], id) == FindProvider(c.providers, id)
    {
      if c.providers[i].id == id {
        return Ok(c.providers[i]);
      }
      assert c.providers[i..][1..] == c.providers[i + 1..];
      i := i + 1;
    }
    return Err("provider not found: " + id);
  }
}
