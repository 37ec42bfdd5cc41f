# Promptguard test engine, modelled in Dafny

Promptguard runs LLM prompt tests. A YAML configuration lists:

- prompt template files;
- providers, named `vendor:model`;
- tests, each with variables and a list of assertions.

A run works in five stages:

1. Expand: the runner makes one test case per prompt file and test.
2. Run each case: load and render the prompt, look up the provider, build a client, ask for a completion, then judge the response with each assertion's evaluator.
3. Collect: the outcomes are gathered into counters and a cost total.
4. Analyse: the Markdown differ writes a failure analysis and a comparison against a baseline run.
5. Report: a reporter chosen by name renders the run as JUnit, Markdown or console text.

This project models that engine. Concurrency, file and network I/O, and the foreign libraries are taken out.

The modules follow the Go packages:

| module | Go package |
|---|---|
| `Config` | `internal/config` |
| `Providers` | `internal/providers` |
| `Assertions` | `internal/assertions` |
| `Prompts` | `internal/prompts` |
| `Runner` | `internal/runner` |
| `RunResults` | the result records of `internal/runner` |
| `Diff` | `internal/diff` |
| `Reporter` | `internal/reporter` |

The result records live in a module of their own. Go's `runner` and `assertions` packages import each other, and Dafny modules cannot.

Three small modules support the rest:

- `Text`: Go's `strings`, `strconv` and `fmt` pieces.
- `Values`: the dynamic `interface{}` values.
- `Wrappers` and `Seqs`: Option, Result and sequence facts.

How the Go code becomes Dafny:

- **Loops.** Code that loops and mutates becomes a `method` with loop invariants. Each method is proved equal to a specification function, and the properties are proved as lemmas about that function.
- **The prompt.** `Prompt` is a `class`, because `parseFrontmatter` rewrites its content in place.
- **Outside libraries.** Whatever the engine takes from outside is a function-typed parameter:
  - the prompt loader;
  - the template engine;
  - `os.Getenv`;
  - the OpenAI chat endpoint;
  - `json.Unmarshal`;
  - the diff library;
  - fmt's `%v`;
  - the `%v` text of durations.
- **Regular expressions.** The three patterns the core uses are modelled concretely, with Go's leftmost-first semantics:
  - the brace pattern of `extractJSON`;
  - the `{{ .Name }}` placeholder pattern;
  - the frontmatter pattern.

The model follows the code as written, including where its behaviour may surprise:

- `calculateRelevanceScore` counts a repeated expected word every time it appears (`Assertions.DuplicatesCountEachTime`).
- `parseFrontmatter` uses its pattern as compiled, without `(?s)`: `Prompts.Prompt.ParseFrontmatter` keeps only the first line after a one-line frontmatter block and leaves multi-line frontmatter in place. The evidently intended reading is `Prompts.StripFrontmatter`, kept as the corrected half of the finding below.
- The provider-lookup error carries its prefix twice ("Provider not found: provider not found: id").
- The render error does the same ("Failed to render prompt: failed to render prompt: …").

## Model

| member | source | states |
|---|---|---|
| `Assertions.NewEvaluator` | internal/assertions/assertions.go:20-39 | the unsupported evaluator is chosen exactly for strings outside the seven validated kinds and carries that string; every other evaluator answers to the string that chose it |
| `Assertions.NewEvaluatorOfKind` | internal/assertions/assertions.go:21-35 | each of the seven evaluators is the one built from its own type name |
| `Assertions.MatchCount` | internal/assertions/assertions.go:209-215 | there are never more matches than expected words |
| `Assertions.RelevanceOf` | internal/assertions/assertions.go:201-222 | the words are the fields of the lowercased expectation; matches never exceed them; the score lies in [0, 1] |
| `Assertions.ScoreBounds` | internal/assertions/assertions.go:217-221 | matches over words, with no words scoring 0, always lies in [0, 1] |
| `Assertions.MatchCountIsIndexCount` | internal/assertions/assertions.go:208-215 | the count is the number of positions of the word list whose word occurs in the lowercased text |
| `Assertions.MatchCountAppend` | internal/assertions/assertions.go:211-215 | the count of a concatenated word list is the sum of the counts |
| `Assertions.MatchCountExtremes` | internal/assertions/assertions.go:211-215 | a full count means every word occurs, a zero count means none does |
| `Assertions.DuplicatesCountEachTime` | internal/assertions/assertions.go:211-215 | a repeated word is counted every time: doubling the list doubles the count |
| `Assertions.CalculateRelevanceScore` | internal/assertions/assertions.go:201-222 | the counting loop yields exactly `RelevanceOf` |
| `Assertions.RelevanceOutcome` | internal/assertions/assertions.go:44-67 | a non-string value is an error with its message; otherwise the result records type, expected value, response and score, and passes iff the score reaches the threshold, 0 standing for 0.7 |
| `Assertions.EvaluateRelevance` | internal/assertions/assertions.go:44-67 | the evaluator yields exactly `RelevanceOutcome` |
| `Assertions.CostOutcome` | internal/assertions/assertions.go:116-127 | never an error; expected is the threshold, actual the cost; passes iff cost ≤ threshold |
| `Assertions.CostOverCeiling` | internal/assertions/assertions.go:116-127 | a $0.0045 response against a $0.003 ceiling fails with "Cost: $0.0045 (threshold: $0.0030)" |
| `Assertions.StubOutcome` | internal/assertions/assertions.go:132-188 | the rubric, closed-QA and jailbreak stubs never error, carry their type, and pass iff the evaluator is the jailbreak one |
| `Assertions.FirstContained` | internal/assertions/assertions.go:161-169 | the keyword found occurs in the text and no earlier keyword of the list does |
| `Assertions.ToxicityOutcome` | internal/assertions/assertions.go:156-176 | passes iff no keyword occurs in the lowercased text; a failure names a keyword that occurs, with every keyword before it in the list absent |
| `Assertions.EvaluateToxicity` | internal/assertions/assertions.go:156-176 | the keyword loop with its early return yields exactly `ToxicityOutcome` |
| `Assertions.ToxicKeywordInListOrder` | internal/assertions/assertions.go:158-167 | "hate" is reported whenever it occurs, wherever "violence" stands in the text; "violence" is reported when "hate" is absent |
| `Assertions.MatchAtExact` | internal/assertions/assertions.go:226 | the brace pattern matches at a position iff a brace span starts there (braces nested at most one level), and the match ends where that span ends |
| `Assertions.MatchEndSound` | internal/assertions/assertions.go:226 | every end the pattern scan reports closes a brace span |
| `Assertions.MatchEndComplete` | internal/assertions/assertions.go:226 | the scan finds the end of every brace span that starts at the match position |
| `Assertions.Matches` | internal/assertions/assertions.go:227 | FindAllString's matches lie in the text, in order, without overlapping |
| `Assertions.MatchesAreSpans` | internal/assertions/assertions.go:227 | every match is a brace span |
| `Assertions.NoSpanBeforeFirstMatch` | internal/assertions/assertions.go:227 | the search is leftmost: no brace span starts before the first match |
| `Assertions.NoSpanBetweenMatches` | internal/assertions/assertions.go:227 | no brace span starts in the gap between two consecutive matches |
| `Assertions.CandidatesAreSpans` | internal/assertions/assertions.go:226-227 | every candidate is a brace span occurring in the text |
| `Assertions.FirstParsing` | internal/assertions/assertions.go:229-235 | the candidate chosen decodes and every earlier one fails to |
| `Assertions.JsonIn` | internal/assertions/assertions.go:224-238 | the result is "" iff no candidate decodes; otherwise it is a brace span from the text that decodes |
| `Assertions.ExtractJson` | internal/assertions/assertions.go:224-238 | the loop with its early return yields exactly `JsonIn` |
| `Assertions.FirstMissing` | internal/assertions/assertions.go:250-258 | the entry found is a string naming an absent field; every earlier string entry names a present field |
| `Assertions.SchemaProblem` | internal/assertions/assertions.go:240-263 | without a `required` list nothing is checked; otherwise the check passes iff the data is an object holding every string field the list names |
| `Assertions.FirstMissingReported` | internal/assertions/assertions.go:250-258 | the error names the first missing field in list order |
| `Assertions.ValidateJsonSchema` | internal/assertions/assertions.go:240-263 | the loop yields exactly `SchemaProblem` |
| `Assertions.ContainsJsonOutcome` | internal/assertions/assertions.go:72-111 | no JSON fails with "No JSON found in response"; otherwise it passes iff a map-valued schema, when given, is met, with "Valid JSON found"; a failed schema check's message is "Schema validation failed: " followed by the schema check's error |
| `Assertions.SchemaFailureNamesField` | internal/assertions/assertions.go:96-102 | a JSON object without "b" checked against required ["b"] fails with "Schema validation failed: required field missing: b" |
| `Assertions.NeverInvalidJson` | internal/assertions/assertions.go:88-94 | the "Invalid JSON" message never occurs, because the extracted text has already decoded once |
| `Assertions.EvaluateContainsJson` | internal/assertions/assertions.go:72-111 | the evaluator yields exactly `ContainsJsonOutcome` |
| `Assertions.Outcome` | internal/assertions/assertions.go:20-197 | errors only for the unsupported evaluator (naming the type) and for relevance with a non-string value; results carry the evaluator's type; rubric and closed-QA fail, jailbreak passes |
| `Assertions.Evaluate` | internal/assertions/assertions.go:20-197 | dispatching to the evaluator yields exactly `Outcome` |
| `Config.ValidateAssertion` | internal/config/config.go:143-171 | accepted iff the kind is one of the seven, a cost threshold is positive and a relevance threshold lies in [0, 1]; each error occurs exactly in its own case |
| `Config.FirstBadProvider` | internal/config/config.go:115-124 | the provider found has an empty or repeated ID and no earlier one does |
| `Config.FirstInvalidAssertion` | internal/config/config.go:132-136 | the assertion found is rejected and every earlier one is accepted |
| `Config.TestsProblem` | internal/config/config.go:127-137 | no problem iff every test has assertions and all of them are valid |
| `Config.ProblemIffNotWellFormed` | internal/config/config.go:101-140 | Validate accepts exactly the configurations with prompts, providers and tests, non-empty distinct provider IDs and valid, non-empty assertion lists |
| `Config.DuplicateReportedFirst` | internal/config/config.go:115-124 | a duplicate-ID error names the first provider that repeats an earlier ID, and every provider before it passed |
| `Config.InvalidAssertionReportedFirst` | internal/config/config.go:127-137 | an assertion error carries the indices of the first bad test and of its first bad assertion, with that assertion's own error |
| `Config.Validate` | internal/config/config.go:101-140 | the loops with their early returns and the ID set yield exactly `Problem` |
| `Config.FindProvider` | internal/config/config.go:195-202 | the provider returned is the first with the ID; the error "provider not found: id" occurs iff no provider has it |
| `Config.GetProvider` | internal/config/config.go:195-202 | the search loop yields exactly `FindProvider` |
| `Providers.VendorNamed` | internal/providers/providers.go:38-49 | the vendor found answers to the name; none is found iff no vendor does |
| `Providers.NewVendorClient` | internal/providers/providers.go:60-73 | a client is built iff the vendor's key variable is set; otherwise the error names that variable |
| `Providers.NewClient` | internal/providers/providers.go:29-50 | an ID without ':' is an invalid-format error; a client's name, ':' and model give back the ID; it keeps the configuration and a set key |
| `Providers.NewClientOfId` | internal/providers/providers.go:29-50 | vendor ':' model (the model may hold further ':') gives that vendor's client on that model, or the missing-key error |
| `Providers.NameHasNoColon` | internal/providers/providers.go:38-46 | vendor names hold no ':', so the split finds the vendor again |
| `Providers.NewClientUnsupported` | internal/providers/providers.go:47-48 | an ID with a ':' but no known vendor before it is the error "unsupported provider: name" |
| `Providers.RequestFor` | internal/providers/providers.go:76-103 | the request uses the client's model and the prompt, a float temperature from the configuration (else 0) and an int max_tokens (else 1000) |
| `Providers.Complete` | internal/providers/providers.go:76-220 | Anthropic, Mistral and Ollama always fail with their not-implemented errors; OpenAI returns the first choice, token-priced cost, total tokens, name and model, or the API or no-choices error |
| `Providers.UnknownModelPricedAsTurbo` | internal/providers/providers.go:245-248 | an unlisted model costs exactly what gpt-3.5-turbo costs |
| `Providers.CostMonotone` | internal/providers/providers.go:231-252 | using more tokens never costs less |
| `Providers.CostNonNegative` | internal/providers/providers.go:231-252 | non-negative token counts never cost less than nothing |
| `Providers.CostAdditive` | internal/providers/providers.go:251 | no tokens cost nothing, and costs add up over token counts |
| `Providers.Gpt4ThousandTokens` | internal/providers/providers.go:239-241 | a thousand prompt and completion tokens on gpt-4 cost $0.09 |
| `RunResults.CountStatusAppend` | internal/runner/runner.go:144-156 | counts and the cost sum add up over concatenated results |
| `RunResults.TotalsOfPermutation` | internal/runner/runner.go:144-156 | counts and the cost sum are the same for any rearrangement of the results |
| `RunResults.StatusPartition` | internal/runner/runner.go:148-155 | when every status is passed or failed, those counters sum to the number of results and none is skipped |
| `RunResults.CountPositive` | internal/runner/runner.go:148-155 | a status is counted iff some result carries it |
| `Runner.LoadedPrompts` | internal/runner/runner.go:177-189 | success iff every file loads, and then the map is keyed by exactly the files with their loaded content; otherwise the error names the first failing file |
| `Runner.LoadPrompts` | internal/runner/runner.go:177-189 | the loop with its early return yields exactly `LoadedPrompts` |
| `Runner.DefaultProvider` | internal/runner/runner.go:197-200 | a test's own provider is kept; an empty one becomes the first provider's ID, or stays empty when there is none |
| `Runner.CaseName` | internal/runner/runner.go:202-205 | an explicit name is kept; otherwise the name is file "_test_" index |
| `Runner.SyntheticNameInjective` | internal/runner/runner.go:204 | two synthetic names are equal only for the same file and index |
| `Runner.CaseFor` | internal/runner/runner.go:195-213 | the case carries the file, the test, its variables, its name and its provider |
| `Runner.CasesFor` | internal/runner/runner.go:195-214 | one case per test, in configuration order |
| `Runner.Expansion` | internal/runner/runner.go:191-218 | there are files × tests cases |
| `Runner.ExpansionLayout` | internal/runner/runner.go:191-218 | case p × (number of tests) + i is test i on the p-th file |
| `Runner.GenerateTestCases` | internal/runner/runner.go:191-218 | the nested loops over any visiting order of the loaded map yield `Expansion`, one case per distinct file and test |
| `Runner.FilterTestCases` | internal/runner/runner.go:220-223 | every case is kept unchanged |
| `Runner.AssertionOutcome` | internal/runner/runner.go:301-314 | the evaluator's result unchanged, or a failed result with the assertion's type and "Evaluation error: …" |
| `Runner.AssertionOutcomeKind` | internal/runner/runner.go:301-314 | every assertion result carries its assertion's type |
| `Runner.UnknownKindFails` | internal/runner/runner.go:302-311 | an unknown type always gives the failed result naming it as unsupported |
| `Runner.RunAssertion` | internal/runner/runner.go:301-314 | yields exactly `AssertionOutcome` |
| `Runner.ValidatedNeverUnsupported` | internal/config/config.go:144-156 | no assertion of a configuration that Validate accepts reaches the unsupported evaluator |
| `Runner.Completion` | internal/runner/runner.go:238-277 | the first failing stage decides the error, behind its own prefix: "Failed to load prompt: ", "Failed to render prompt: ", "Provider not found: ", "Failed to create provider client: " or "Failed to execute prompt: "; a response comes back iff all five stages succeed, and it is the completion's response |
| `Runner.AssertionResults` | internal/runner/runner.go:284-291 | one result per assertion, in order |
| `Runner.TestOutcomeSpec` | internal/runner/runner.go:225-299 | the contract of the reference function `TestOutcome`: the outcome keeps the case's fields; a stage failure leaves it failed with that error, no response, no assertions and no cost; otherwise it has one result per assertion and passes iff all passed |
| `Runner.RunSingleTest` | internal/runner/runner.go:225-299 | the staged early returns and the assertion loop yield exactly `TestOutcome` |
| `Runner.RunAssertions` | internal/runner/runner.go:283-295 | the loop appends one result per assertion and its flag says whether all passed |
| `Runner.LoadFailureStopsTest` | internal/runner/runner.go:238-244 | after a load failure nothing else is consulted, and the result is the initial failed one with the load error |
| `Runner.LookupFailureStopsTest` | internal/runner/runner.go:254-260 | an unconfigured provider fails before any client, key or endpoint is consulted |
| `Runner.CompletionFailureSkipsAssertions` | internal/runner/runner.go:270-277 | when a stage fails no assertion is evaluated and the JSON parser is never consulted |
| `Runner.FailedHasReason` | internal/runner/runner.go:283-295 | a failed test has a stage error or a failed assertion |
| `Runner.Outcomes` | internal/runner/runner.go:125-134 | exactly one outcome per case |
| `Runner.OutcomeAt` | internal/runner/runner.go:125-134 | the k-th outcome is the k-th case's |
| `Runner.Arrive` | internal/runner/runner.go:119-141 | as many results arrive as were pending, each one of them; `Runner.ArrivePermutes` and `Runner.EveryOrderArrives` state that the arrival orders are exactly the permutations |
| `Runner.ArrivePermutes` | internal/runner/runner.go:133-144 | whatever the scheduling, every outcome reaches the collect loop exactly once |
| `Runner.EveryOrderArrives` | internal/runner/runner.go:133-144 | every rearrangement of the outcomes is a possible arrival order |
| `Runner.Collect` | internal/runner/runner.go:143-156 | the collect loop appends every result, counts each status and sums the costs |
| `Runner.Run` | internal/runner/runner.go:89-166 | a prompt that fails to load fails the run; otherwise there is one arrived result per case, files × tests in all, with counters and cost taken over the outcomes |
| `Runner.RunCases` | internal/runner/runner.go:125-134 | the workers, run one after another, yield `Outcomes` |
| `Runner.ArrivalOrderIrrelevant` | internal/runner/runner.go:144-156 | the counters and the cost sum do not depend on the arrival order |
| `Runner.RunCountersPartition` | internal/runner/runner.go:144-156 | passed plus failed equals the number of cases, and nothing is skipped |
| `Runner.HasFailuresIffFailedResult` | internal/runner/runner.go:317-319 | with counters taken from the results, HasFailures holds iff some result failed |
| `Prompts.PlaceholderAt` | internal/prompts/prompts.go:75 | a match ends inside the text and captures an identifier |
| `Prompts.PlaceholderAtSound` | internal/prompts/prompts.go:75 | a match is braces, optional white space, a dot, the name, optional white space and braces |
| `Prompts.PlaceholderAtComplete` | internal/prompts/prompts.go:75 | placeholder text is always matched in full, with its name captured |
| `Prompts.Placeholders` | internal/prompts/prompts.go:76 | every captured name is an identifier |
| `Prompts.Dedup` | internal/prompts/prompts.go:78-86 | no name twice, and exactly the names that occur |
| `Prompts.DedupFirstOccurrenceOrder` | internal/prompts/prompts.go:78-86 | the names keep the order of their first occurrence |
| `Prompts.Prompt.GetVariables` | internal/prompts/prompts.go:73-89 | the loop with its seen map yields the distinct placeholder names in first-occurrence order |
| `Prompts.FrontmatterMatch` | internal/prompts/prompts.go:60-61 | a match requires the content to open with "---" |
| `Prompts.StripFrontmatterAsWritten` | internal/prompts/prompts.go:58-70 | as written: content not opening with "---" is unchanged, nothing grows, and after a match no line break is left |
| `Prompts.StripFrontmatter` | internal/prompts/prompts.go:58-70 | corrected semantics, used only as the finding's corrected half: content not opening with "---" is unchanged, and nothing grows |
| `Prompts.FrontmatterFound` | internal/prompts/prompts.go:60 | a frontmatter block between two "---" lines is matched, with its group and the body where they stand |
| `Prompts.StripFrontmatterKeepsBody` | internal/prompts/prompts.go:58-70 | corrected semantics: the whole body after the frontmatter survives |
| `Prompts.FrontmatterAsWrittenKeepsFirstLine` | internal/prompts/prompts.go:60-66 | as written, only the first line of the body survives |
| `Prompts.FrontmatterAsWrittenMissesLines` | internal/prompts/prompts.go:60-63 | as written, frontmatter of more than one line never matches |
| `Prompts.FrontmatterAsWrittenMissesTwoLines` | internal/prompts/prompts.go:60-63 | as written, a two-line frontmatter stays in the content |
| `Prompts.Prompt.constructor` | internal/prompts/prompts.go:26-29 | a new prompt holds the file's content and empty metadata |
| `Prompts.Prompt.ParseFrontmatter` | internal/prompts/prompts.go:58-70 | with the pattern as compiled: never fails; the content becomes `StripFrontmatterAsWritten` of the old content (group 2, a single line, on a match) and is unchanged when the pattern does not match; the metadata is untouched |
| `Prompts.Prompt.Validate` | internal/prompts/prompts.go:92-104 | "prompt content is empty" iff the content is all white space; otherwise a template parse error is reported with its prefix, and the prompt is valid iff it parses |
| `Prompts.Render` | internal/prompts/prompts.go:47-55 | the rendered text, or the engine's error behind "failed to render prompt: " |
| `Diff.FailedTestsCounted` | internal/diff/diff.go:27-28 | the results selected for sections are as many as the "failed" counter over them |
| `Diff.Percent` | internal/diff/diff.go:110-111 | a zero divisor gives an infinity or NaN, otherwise the one-place percentage |
| `Diff.ContextLines` | internal/diff/diff.go:136-158 | an equal segment never shows more lines than it has; a single line is shown as it is; a segment of at most six lines shows only its own lines, and (unless single) none empty; `Diff.LongSegmentElided` and `Diff.ShortSegmentVerbatim` state the rest |
| `Diff.LongSegmentElided` | internal/diff/diff.go:138-151 | a long equal segment shows at most seven lines: the elision mark and lines taken from its first three and last three |
| `Diff.ShortSegmentVerbatim` | internal/diff/diff.go:152-157 | a short segment with no empty line is shown in full, and its shown lines rejoin to the text |
| `Diff.EqualContext` | internal/diff/diff.go:136-158 | the loops over an equal segment write its context lines, indented |
| `Diff.LeadingLines` | internal/diff/diff.go:139-144 | the first loop writes the first three lines, less an empty first one |
| `Diff.TrailingLines` | internal/diff/diff.go:146-151 | the second loop adds the non-empty ones of the last three lines |
| `Diff.ShortLines` | internal/diff/diff.go:153-157 | the loop over a short segment writes its context lines |
| `Diff.GenerateStringDiff` | internal/diff/diff.go:121-164 | the segment loop writes the diff block of the library's segments |
| `Diff.AssertionDiff` | internal/diff/diff.go:72-119 | an assertion's section opens with its type and its message |
| `Diff.GenerateTestFailureDiff` | internal/diff/diff.go:43-70 | writes exactly `TestFailureDiff`: header, the failed assertions' sections in order, then the response |
| `Diff.FailedAssertionDiffs` | internal/diff/diff.go:56-61 | the loop writes one section per failed assertion, in order, and none for passed ones |
| `Diff.AddAssertionDiff` | internal/diff/diff.go:58-60 | one loop step adds the section of the assertion iff it failed |
| `Diff.FailureDiff` | internal/diff/diff.go:15-41 | no failures give the header and the all-passed line only; otherwise the header, the count, one section per failed result in order, then the summary |
| `Diff.GenerateFailureDiff` | internal/diff/diff.go:15-41 | writes exactly `FailureDiff` |
| `Diff.FailedSections` | internal/diff/diff.go:27-32 | the loop writes one section per failed result, in order |
| `Diff.SectionsAppend` | internal/diff/diff.go:27-32 | sections follow result order: later results' sections come after earlier ones' |
| `Diff.FailureDiffOpens` | internal/diff/diff.go:18 | the analysis always opens with its title |
| `Diff.OneSectionPerFailure` | internal/diff/diff.go:20-32 | with counters from the results, there are as many sections as failures, and the all-passed branch is taken iff no result failed |
| `Diff.RunnerOutcomeRenderable` | internal/diff/diff.go:102-104 | results the runner produces never reach the panicking float type assertions |
| `Diff.AssertionOutcomeFloats` | internal/diff/diff.go:102-104 | a cost assertion's expected and actual are always floats |
| `Diff.FormatChange` | internal/diff/diff.go:203-210 | the arrow gives the sign of the change, and "➖ 0" is written iff the change is zero; `Diff.FormatChangeRoundTrip` proves that the text reads back as the change |
| `Diff.FormatChangeRoundTrip` | internal/diff/diff.go:203-210 | the change text reads back as the change |
| `Diff.FormatChangeInjective` | internal/diff/diff.go:203-210 | different changes are written differently |
| `Diff.FormatChangeParts` | internal/diff/diff.go:203-210 | the arrow gives the sign; positives get "+n", negatives "-n", zero "➖ 0" |
| `Diff.FormatChangeNegate` | internal/diff/diff.go:204-208 | a change and its opposite share their digits, with opposite arrows |
| `Diff.FormatCostChange` | internal/diff/diff.go:212-219 | the arrow is 🔺 above +0.0001, 🔽 below -0.0001, and "➖ $0.0000" is written iff the change lies within that dead band |
| `Diff.FormatCostChangeMirror` | internal/diff/diff.go:212-219 | outside the ±0.0001 dead band a rise and an equal fall show the same amount with opposite arrows; inside it both show zero |
| `Diff.TrendOf` | internal/diff/diff.go:187-192 | a regression iff more tests fail than in the baseline, an improvement iff fewer do |
| `Diff.TrendNotice` | internal/diff/diff.go:187-192 | a notice is written iff the trend is a regression or an improvement |
| `Diff.CostAlertLine` | internal/diff/diff.go:194-197 | the alert line is written iff the cost rose by more than $0.001, and it opens with the increase to four places |
| `Diff.BaselineComparison` | internal/diff/diff.go:166-200 | the report opens with the summary table, followed by the trend notice; with no trend and no alert it is the table alone |
| `Diff.TrendMatchesFailedArrow` | internal/diff/diff.go:183-193 | regression iff the Failed change shows 🔺, improvement iff 🔽, neither iff it shows zero |
| `Diff.TrendSwap` | internal/diff/diff.go:189-193 | swapping the runs swaps regression and improvement |
| `Diff.CostAlertShowsIncrease` | internal/diff/diff.go:195-198 | the alert fires only on an increase; a rise within a tenth of a cent raises no alert |
| `Diff.CostAlertFromZeroBaseline` | internal/diff/diff.go:195-198 | an alert against a zero-cost baseline reports "+Inf%" |
| `Diff.SelfComparisonQuiet` | internal/diff/diff.go:167-201 | a run compared with itself shows no change and no notice |
| `Reporter.New` | internal/reporter/reporter.go:23-38 | each name selects its reporter, and every name but json, junit, html and markdown selects the console |
| `Reporter.NewOfName` | internal/reporter/reporter.go:23-38 | every reporter is reached by its own name |
| `Reporter.FailureMessagesEmpty` | internal/reporter/reporter.go:102-109 | there is a failure message iff some assertion failed |
| `Reporter.FailureMessagesOfFailed` | internal/reporter/reporter.go:102-107 | every failure message is a failed assertion's |
| `Reporter.CaseFailure` | internal/reporter/reporter.go:92-120 | name and class are the test's name and file; a failure is attached iff the test failed with an error or a failed assertion; its message is the error if any, else the failed messages joined by "; ", and its text equals its message |
| `Reporter.CaseOf` | internal/reporter/reporter.go:92-120 | the case has the test's name and file; a failure element occurs only for a failed test, with its text equal to its message; a failed test with an error always gets one carrying that error; `Reporter.CaseFailure` states the iff |
| `Reporter.Cases` | internal/reporter/reporter.go:92-123 | one case per result |
| `Reporter.CaseAt` | internal/reporter/reporter.go:92-123 | the k-th case is the k-th result's |
| `Reporter.SuiteOf` | internal/reporter/reporter.go:84-123 | the suite has its fixed name, tests = total, failures = failed, no errors and one case per result |
| `Reporter.SuiteFollowsResults` | internal/reporter/reporter.go:84-123 | the suite has its fixed name, tests = total, failures = failed and no errors, with one case per result in order |
| `Reporter.FailedCasesCount` | internal/reporter/reporter.go:84-120 | when every failed result has a reason, the cases with failures are exactly the failed results |
| `Reporter.RunnerFailureReported` | internal/reporter/reporter.go:101-120 | a runner outcome gets a failure element iff it failed |
| `Reporter.FailuresAttributeAgrees` | internal/reporter/reporter.go:84-90 | in every arrival order, the failure elements are as many as the failures counted |
| `Reporter.CollectFailureMessages` | internal/reporter/reporter.go:102-107 | the loop collects the failed assertions' messages in order |
| `Reporter.BuildCase` | internal/reporter/reporter.go:93-120 | builds exactly `CaseOf` |
| `Reporter.GenerateJUnit` | internal/reporter/reporter.go:83-123 | the suite loop builds exactly `SuiteOf` |
| `Reporter.MarkdownLeadsWithAnalysis` | internal/reporter/reporter.go:273-282 | the report opens with the failure analysis and a rule iff the run has failures, otherwise with the report title |
| `Reporter.MarkdownTestHeading` | internal/reporter/reporter.go:300-306 | a test's heading shows ❌ iff it failed and ✅ otherwise |
| `Reporter.MarkdownTestsAppend` | internal/reporter/reporter.go:300-325 | entries follow result order |
| `Reporter.WriteMarkdownAssertions` | internal/reporter/reporter.go:315-322 | the assertion loop writes exactly `MarkdownAssertions` |
| `Reporter.WriteMarkdownTest` | internal/reporter/reporter.go:301-324 | writes exactly one `MarkdownTest` entry |
| `Reporter.WriteMarkdownTests` | internal/reporter/reporter.go:300-325 | the test loop writes exactly `MarkdownTests` |
| `Reporter.GenerateMarkdown` | internal/reporter/reporter.go:270-327 | writes exactly `MarkdownReport` |
| `Reporter.ConsoleTestsListFailed` | internal/reporter/reporter.go:357-369 | the console lists the failed tests in order and nothing for the others |
| `Reporter.ConsoleAssertionsListFailed` | internal/reporter/reporter.go:363-367 | a test's entry lists its failed assertions in order and nothing for the passed ones |
| `Reporter.ConsoleFailuresSection` | internal/reporter/reporter.go:355-370 | with counters from the results, the summary stands alone iff no test failed; otherwise a failures section follows it, listing exactly the failed tests |
| `Reporter.PrintAssertions` | internal/reporter/reporter.go:363-367 | the assertion loop prints exactly `ConsoleAssertions` |
| `Reporter.PrintTest` | internal/reporter/reporter.go:358-367 | prints exactly one `ConsoleTest` entry |
| `Reporter.PrintTests` | internal/reporter/reporter.go:357-369 | the test loop prints exactly `ConsoleTests` |
| `Reporter.GenerateConsole` | internal/reporter/reporter.go:340-373 | prints exactly `ConsoleReport` |
| `Text.ToLower` | internal/assertions/assertions.go:205-206 | the length is kept, and each character is lowered on its own |
| `Text.Fields` | internal/assertions/assertions.go:208 | every field is a non-empty run without white space |
| `Text.FieldsOfJoin` | internal/assertions/assertions.go:208 | splitting words joined by single spaces gives the words back |
| `Text.TrimSpaceEmpty` | internal/prompts/prompts.go:93 | trimming leaves nothing iff the text is all white space |
| `Text.Split` | internal/diff/diff.go:137 | at least one piece, none holding the separator |
| `Text.JoinSplit` | internal/diff/diff.go:137 | joining the pieces with the separator gives the text back |
| `Text.Cut` | internal/providers/providers.go:30-36 | a cut exists iff the separator occurs; the parts rejoin to the text and the left part has no separator |
| `Text.CutAtFirst` | internal/providers/providers.go:30-36 | the cut is at the first separator, so the right part may hold more |
| `Text.FormatFixed` | internal/reporter/reporter.go:97 | `%.Nf`: a leading '-' iff the value is negative; for N > 0 the text ends with a point and N digits, for N = 0 it is digits after the sign |
| `Text.NatToStringRoundTrip` | internal/runner/runner.go:204 | a numeral reads back as its number |
| `Text.NatToStringInjective` | internal/runner/runner.go:204 | different numbers have different numerals |

## Left out

- The workers of `Run` are not modelled: the goroutines, the semaphore bounding parallelism, the WaitGroup and the result channel (internal/runner/runner.go:119-141). A sequential model cannot check a concurrency bound. Workers run in case order, and the order in which results reach the collect loop is a parameter.
- Runner.Arrive: a choice index out of range picks the first pending result. This is a modelling convenience; every order remains reachable (`Runner.EveryOrderArrives`).
- Not modelled: time, durations and the Time attributes of the JUnit suite and cases. The Markdown and console `%v` text of durations is a string parameter, and the run's timestamp is a parameter.
- Storing metrics (SQLite) and its warning are not modelled.
- File and system I/O are parameters or left out:
  - `config.Load` and `LoadFromFile`;
  - `expandPromptPaths` (glob);
  - `prompts.LoadFromFile`, represented by the `load` parameter, which gives the prompt's content or its error;
  - writing reports to stdout or a file: the Markdown and console reporters' output is the returned text.
- Not modelled: the JSON reporter's and the HTML reporter's output, and the XML marshalling of the JUnit suite. These are serialisations by foreign libraries. The JUnit suite is modelled up to the record that is marshalled.
- Foreign libraries are parameters:
  - `text/template` parsing and execution;
  - `json.Unmarshal`;
  - diffmatchpatch, whose segments are an input;
  - fmt's `%v` of a dynamic value;
  - `os.Getenv`;
  - the OpenAI SDK call.
- Not modelled: internal/providers/ollama.go's HTTP client, the metrics store, the viewer and the command-line layer.
- Not modelled: the duplicate `OllamaClient` declaration and the import-path misspelling. These are build problems, not behaviour.
- Text.ToLower: only ASCII letters are lowered. Go's `strings.ToLower` also lowers other Unicode letters. There is no Unicode case mapping in this model.
- Text.FormatFixed: `%.Nf` is modelled on the exact real value, rounding half to even. Go rounds the float64 nearest to it, so results can differ on values that float64 cannot represent exactly. Costs, thresholds and scores are exact reals throughout; float64 rounding and `float32` temperature conversion are not modelled.
- Diff.AssertionDiff: the cost case's `.(float64)` type assertions panic on other values (internal/diff/diff.go:103-104). The model requires float values instead (`Diff.CostValuesAreFloats`). `Diff.RunnerOutcomeRenderable` proves the runner never produces anything else.
- Providers.Complete: the OpenAI request's message role and the context argument are not modelled.
- Settings in the configuration (budget, timeout, retries, cache) are carried but not used, as in the source's core.

## Findings

| source | as written | input that shows it | evidently intended | confidence | as-written member | corrected member |
|---|---|---|---|---|---|---|
| internal/prompts/prompts.go:60 | the pattern has no `(?s)` flag, so `.` never matches a newline: the lazy frontmatter group cannot span lines, and the body group `(.*)` stops at the first newline | "---\ntitle: x\n---\nline1\nline2" leaves the content "line1"; "---\na: 1\nb: 2\n---\nbody" is not recognised at all and keeps its frontmatter | the content becomes everything after the closing "---" line, for frontmatter of any number of lines | not executed | `Prompts.FrontmatterAsWrittenKeepsFirstLine` | `Prompts.StripFrontmatterKeepsBody` |
