# autonomous-test-agent, modelled in Dafny

A model of the deterministic core of autonomous-test-agent. The agent explores a web
application with an LLM-driven browser. It turns what the agent reports into test cases,
turns each case into a Playwright script, runs the script, and keeps credentials away
from the language model throughout. The model covers seven pieces of that core:

- `extractor.dfy` (module `Extractor`): how `generate_tests` recovers test cases from
  the agent's free text. This covers the direct parse, the fenced-block regex, the
  `"test_cases"` marker with its truncation repair and trailing-comma removal, case
  validation, and the synthetic `ERR` / `TC001` cases.
- `server.dfy` (module `Server`): the `TEST_SUITES` table, script and metadata
  generation after extraction, the `CRASH` case, and `execute_test`'s lookup, script
  discovery and `PASS` / `FAIL` / `TIMEOUT` / `ERROR` verdict.
- `secrets.dfy` (module `Secrets`): `SecretsManager`. It covers the cache-file name,
  first-match selector filling of the login form, Escape handling, and the session cookie
  cache that is saved, validated and deleted when stale.
- `generator.dfy` (module `Generator`): `PlaywrightGenerator`. It covers the filename
  sanitisation, the step docstring, selector extraction, the fill / click / verify / wait
  classification, click-selector choice, quote escaping, the `PASS` sentinel, and the
  metadata file.
- `recorder.dfy` (module `Recorder`): the codegen command, the cleanup of codegen's
  output, the line-by-line conversion of recorded code into English steps, and the
  test-case id.
- `audit.dfy` (module `Audit`): `AuditLogger`. It covers credential registration, the
  three leak detectors, audit entries with preview and leak details, and the report
  counters.
- `lifecycle.dfy` (module `Lifecycle`): `LifecycleLogger`. It covers events appended
  per session, newest-first stable queries with a limit, clearing, the sorted session
  list, and reloading from the per-session files with deduplication by event id.
- `isolation.dfy` (module `Isolation`): the static credential-flow checker. It has a
  small syntax tree, the recursive `_contains_credentials` predicate, the visitor that
  reports one violation per flagged argument of an LLM call, per-file error handling,
  and the exit code.

`base.dfy` (module `Base`) holds the Python string operations the code relies on.
`json.dfy` (module `Json`) holds the JSON values and Python truthiness.

Objects whose fields the source updates are classes: `SuiteRegistry`,
`PlaywrightGenerator` with its `Disk`, `SecretsManager` with a `Page` and a
`CacheDisk`, `RecorderAgent`, `AuditLogger`, `LifecycleLogger` and
`CredentialLeakDetector`. Each loop of the source is a method with invariants, proved
against a function on values; the lemmas are stated about those functions.

Several things are parameters of the model: `json.loads`, SHA-256, the clock, `uuid4`,
the environment, the agent's reply, the subprocess outcome, directory listings, and
the faults of the browser and the file system. Browser faults are the points at which a
page call raises. File-system faults are the paths at which `write_text` raises (the
generator's `Disk.refused`) and the calls of `_save_session` that fail (`SaveFault`).

`generate_tests` and `execute_test` are modelled as corrected by the three rows of
"## Findings", and each bug is also modelled as written, in a member of its own:
- extraction runs with `re` imported (`ExtractCases`; as written, `ExtractCasesAsWritten`);
- `save_test_metadata` is passed the credentials dict (as written it gets none:
  `AsWrittenMetadataBlanksUrl`);
- `execute_test` globs `data/generated_tests`, where the scripts are written (`ExecuteTest`;
  as written, `ExecuteTestAsWritten`).

Findings row 4 is about `_generate_test_id`, whose ids are not unique as written.
`RecorderAgent.GenerateTestId` models it as written, and `OrderedTestId` is the
numbering that keeps them unique. `stop_recording`, its only caller, is not modelled.

## Model

| member | source | states |
|---|---|---|
| Extractor.SkipSpace | src/core/server.py:114 | the `\s*` of the fence regex: the position after the longest run of whitespace from `i` |
| Extractor.FenceOpen | src/core/server.py:114 | an opening match is three backticks, an optional `json`, whitespace, then the `{` that starts the group |
| Extractor.FenceClose | src/core/server.py:114 | the lazy `.*?\}`: the first `}` followed by whitespace and three backticks, and no earlier one |
| Extractor.FenceFind | src/core/server.py:114 | the leftmost start with a match, where no earlier start has one; None when no start has one |
| Extractor.FencedBlockSpec | src/core/server.py:114-117 | the extracted group is the leftmost fenced match with the shortest body; None exactly when no fence matches |
| Extractor.FencedBlockAt | src/core/server.py:114 | a fence with header, `{`, body without backticks, `}` and closing fence yields exactly that `{...}` |
| Extractor.FencedBlockOfWrapped | src/core/server.py:113-117 | prose, a ```` ```json ```` or ```` ``` ```` header, a JSON object and the closing fence give back the object |
| Extractor.MarkerBeforeBraceIff | src/core/server.py:125 | `[^\{]*"test_cases"` matches from `k` iff `"test_cases"` occurs with no `{` in between |
| Extractor.MarkerSearch | src/core/server.py:125 | the first `{` from which the marker regex matches, and no earlier one |
| Extractor.Flatten | src/core/server.py:131 | the candidate with `\n` turned into spaces and `\r` removed contains neither |
| Extractor.MarkerCandidateSpec | src/core/server.py:125-131 | a candidate exists iff some `{` is followed by the marker with no `{` between; it is the flattened suffix from the first such `{` |
| Extractor.StripCommasKeepsCount | src/core/server.py:153 | deleting commas before a closer leaves the number of every bracket, brace and quote unchanged |
| Extractor.StripCommasNoComma | src/core/server.py:153 | text without a comma is left unchanged |
| Extractor.StripCommasBeforeCloser | src/core/server.py:153 | a comma followed only by whitespace before `]` or `}` is deleted together with that whitespace |
| Extractor.RepairCount | src/core/server.py:142-153 | per character: the repair adds one `"` and one `]` per excess `[`, one `}` per excess `{`, and never adds an opener |
| Extractor.RepairCounts | src/core/server.py:142-153 | after repair, `]` and `}` are no longer outnumbered by `[` and `{` |
| Extractor.RepairNoExcess | src/core/server.py:142-153 | text with no excess opener and no comma is left unchanged by the repair |
| Extractor.RepairAfterClosedString | src/core/server.py:149 | `["c"` becomes `["c""]`: the fix appends `"]` even when no string is open |
| Extractor.ChainIsFirstTruthy | src/core/server.py:103-159 | the parsed document is truthy iff one of the three strategies gives a truthy value, and it is then the first such value in order |
| Extractor.ValidCasesMembers | src/core/server.py:171-178 | a value is kept iff it is one of the inputs and is a dict with `id`, `title` and `steps` |
| Extractor.ValidCasesAppend | src/core/server.py:171-178 | validation works element by element, so order is kept |
| Extractor.ValidCasesAllValid | src/core/server.py:171-178 | a list of valid cases is kept whole |
| Extractor.Case | src/core/server.py:98 | a synthetic case has the given id, title and steps and passes validation |
| Extractor.NoOutputIsAgentFailed | src/core/server.py:96-98 | no output or empty output gives exactly one case `ERR` / `Agent Failed` with one step |
| Extractor.UnparseableIsParseError | src/core/server.py:185-196 | non-empty output from which no strategy gets a truthy document gives one `ERR` / `JSON Parse Error` case |
| Extractor.ParseErrorCaseShape | src/core/server.py:188-196 | that case has three steps, and the third holds a prefix of the raw output of at most 200 characters |
| Extractor.NoValidCaseIsManualReview | src/core/server.py:180-184 | a parsed dict with no valid case gives one `TC001` / `Manual Review Required` case |
| Extractor.ExtractionCasesValid | src/core/server.py:162-196 | whenever extraction returns cases, there is at least one and each is valid |
| Extractor.ExtractionRaisesOnlyOnNonDict | src/core/server.py:162-163 | extraction raises exactly when the parsed document is truthy but not a dict, so that `.get` fails |
| Extractor.FencedOutputLikeBare | src/core/server.py:113-120 | with `re` available, a fenced object amid prose is extracted as if the object had been sent alone |
| Extractor.AsWrittenFencedRaises | src/core/server.py:113-114 | as written, any output whose direct parse is falsy raises `NameError` for `re` |
| Extractor.AsWrittenAgreesOnDirect | src/core/server.py:96-110 | as written and corrected agree when there is no output or the direct parse succeeds |
| Extractor.FencedBlock | src/core/server.py:114-115 | group 1 of the first match of the fence regex, None without a match; its meaning is stated by FencedBlockSpec and FencedBlockAt |
| Extractor.MarkerCandidate | src/core/server.py:125-131 | `json_str`: the text from the start of the marker regex's match, with `\n` turned into spaces and `\r` dropped; None without a match |
| Extractor.StripCommas | src/core/server.py:153 | `re.sub` of `,\s*` before `]` or `}`, scanning left to right without overlaps |
| Extractor.Repair | src/core/server.py:142-153 | `repaired_str`: one `"]` per excess `[`, then one `}` per excess `{`, then the comma clean-up |
| Extractor.ParsedJson | src/core/server.py:103-159 | `parsed_json` after the three methods: each later method runs only while the value so far is falsy, and a failed decode keeps the earlier value |
| Extractor.ValidCases | src/core/server.py:171-178 | `validated_cases`: the entries that are dicts with `id`, `title` and `steps`, in order |
| Extractor.CasesFromParsed | src/core/server.py:162-184 | a truthy non-dict raises `AttributeError` for `.get`; a dict gives its valid cases, or the `TC001` case when none is valid |
| Extractor.ExtractCases | src/core/server.py:96-196 | (corrected: Findings row 1) the case list of lines 96-196 with `re` available: the `ERR` case without output, the parsed cases, or the parse-error case |
| Extractor.ExtractCasesAsWritten | src/core/server.py:96-196 | the same as written: once the direct parse is falsy, line 114 raises `NameError` for `re` |
| Server.RequestJson | src/core/server.py:199 | `req.dict()` is a dict whose `suite_name` is the request's suite |
| Server.CrashCase | src/core/server.py:230-234 | the crash case is `CRASH` / `Server Error`, with the error text and the crash-report path as its steps |
| Server.EnvCredentials | src/core/server.py:207-211 | the credentials dict has exactly `url`, `username` and `password`, with the url read from `APP_LOGIN_URL` |
| Server.SuiteRegistry.constructor | src/core/server.py:24 | the suite table starts empty and well formed |
| Server.SuiteRegistry.GenerateTests | src/core/server.py:78-234 | (corrected: Findings rows 1 and 3) status is always `success`. When extraction raises, the single `CRASH` case is returned and the table and disk are unchanged. Otherwise the table gains the suite and each script is written where the file system accepts it. A metadata write that raises gives the `CRASH` case, with the table already updated and the scripts on disk. Otherwise the metadata is written when some script was, and the count of written scripts is reported |
| Server.RegistryOkUpdate | src/core/server.py:199 | storing valid cases keeps every suite in the table well formed |
| Server.OutcomeCasesValid | src/core/server.py:162-196 | every case stored after a successful extraction is valid |
| Server.RunExtraction | src/core/server.py:96-196 | the step-by-step extraction equals the extraction outcome function |
| Server.GenerateSuiteFiles | src/core/server.py:203-225 | (corrected: Findings row 3) the disk holds every script whose generation did not raise, plus the metadata when some script was written and its path is accepted; the result is the metadata write's exception exactly when that write raises |
| Server.WriteAllScripts | src/core/server.py:214-220 | the loop writes the script of every case that converts and whose path the file system accepts, skips the others as the `except` does, and returns the written paths in order |
| Server.WriteCase | src/core/server.py:215-220 | one case writes its script and reports its path; when `generate_script` raises (a case it cannot convert, or a refused path) nothing is written and no path is reported |
| Server.GeneratedPathsWritten | src/core/server.py:214-220 | the loop reports at most one path per case; every reported path was accepted by the file system and holds a script afterwards; a refused path that was absent stays absent |
| Server.WriteOneKeeps | src/core/server.py:215-220 | one case adds at most its own accepted path, with a script, and keeps every script already written |
| Server.GenerateOutcome | src/core/server.py:93-196 | (corrected: Findings row 1) the `try` block up to line 196: an exception of the agent or of extraction becomes a crash message, else the extracted cases |
| Server.AfterGeneration | src/core/server.py:203-225 | (corrected: Findings row 3) the disk after the script loop and the metadata write: scripts at accepted paths, then the metadata with the credentials when some script was written and the metadata path is accepted |
| Server.ValidateCases | src/core/server.py:171-178 | the validation loop returns exactly the valid cases, in order |
| Server.FindCase | src/core/server.py:249 | a found case has the requested id. NotFound means every case has another id. A raise means a case lacks `id` |
| Server.Matching | src/core/server.py:255-256 | the glob result holds exactly the listed paths matching `<dir>/<suite>_<id>_*.py` |
| Server.GlobMatch | src/core/server.py:255-256 | a path matches `<prefix>*.py` iff it starts with the prefix, ends in `.py` and has no `/` in between |
| Server.Verdict | src/core/server.py:283-286 | `PASS` iff the output contains `PASS` or the exit code is 0, else `FAIL` |
| Server.RunResponse | src/core/server.py:270-296 | every script outcome gives a `success` response |
| Server.LookupIn | src/core/server.py:244-252 | the lookup is absent exactly when the suite is missing or empty |
| Server.ExecuteErrors | src/core/server.py:244-252 | a missing suite gives `Suite not found`; a suite without the id gives `Test case not found` |
| Server.FindCaseNone | src/core/server.py:249-252 | when every case has a different id, the case is not found |
| Server.ExecuteHandledOnValidTable | src/core/server.py:244-296 | (corrected: Findings row 2) on a well-formed table, with a fallback that does not raise, execution always answers |
| Server.FindCaseNoRaise | src/core/server.py:249 | a table of valid cases never makes the lookup raise |
| Server.ExecuteFoundCase | src/core/server.py:254-289 | (corrected: Findings row 2) a found case runs the first matching script under `data/generated_tests` when one exists; otherwise the fallback answers |
| Server.RunVerdict | src/core/server.py:279-289 | the verdict of a finished run, together with the last 200 characters of stdout plus stderr |
| Server.RunFailures | src/core/server.py:291-296 | a timeout gives `TIMEOUT` and any other failure gives `ERROR` |
| Server.FallbackResult | src/core/server.py:258-264 | the fallback's result is returned as is, with an empty or None result turned into `FAIL` |
| Server.FallbackResponse | src/core/server.py:258-264 | the fallback's answer: status `success` with its result, `FAIL` for an empty or missing one; its exception escapes |
| Server.ExecuteIn | src/core/server.py:244-296 | `execute_test` with scripts looked up under a given directory: the two lookup errors, a raise for a malformed suite, the fallback without a matching script, else the run's response |
| Server.ExecuteTest | src/core/server.py:244-296 | (corrected: Findings row 2) `execute_test` looking under `data/generated_tests`, where `generate_tests` writes |
| Server.ExecuteTestAsWritten | src/core/server.py:255 | `execute_test` as written, looking under `generated_tests/` |
| Server.GeneratedScriptRunPasses | src/core/server.py:283-286 | a run of a generated script is `PASS` iff its `__main__` block completes (exit status 0) or its output mentions `PASS`; a script whose `try` block failed and returned `FAIL` still completes, so its run is `PASS` |
| Server.GeneratedScriptIsFound | src/core/server.py:204 | the script written for a case matches the glob for that case under `data/generated_tests` |
| Server.AsWrittenGlobMissesDataDir | src/core/server.py:255-256 | as written, no path under `data/` matches the `generated_tests/` pattern |
| Server.AsWrittenExecuteFallsBack | src/core/server.py:255-264 | as written, with every script under `data/`, a found case always goes to the fallback |
| Server.MetadataBesideScript | src/generators/playwright_generator.py:133 | the metadata file a script looks for is the one `save_test_metadata` writes |
| Server.AsWrittenMetadataBlanksUrl | src/core/server.py:224 | metadata saved without credentials makes a generated script open the url `""` |
| Server.CorrectedMetadataKeepsUrl | src/core/server.py:207-224 | metadata saved with the credentials makes the script open `APP_LOGIN_URL` |
| Server.GeneratedSuiteRunsAgainstLoginUrl | src/core/server.py:203-225 | (corrected: Findings row 3) once generation wrote some script and the metadata, a script finds metadata naming the configured login URL |
| Generator.AsTestCase | src/generators/playwright_generator.py:31-32 | id, title and steps are read from the dict, with `TC001`, `Test Case` and `[]` as defaults; a non-dict, or an id or title that is not a string, is treated as raising |
| Generator.StepTexts | src/generators/playwright_generator.py:84 | a list of steps is accepted iff every element is a string, and is then kept element for element; a string gives its characters as the steps; any other value is treated as raising |
| Generator.KeepSafe | src/generators/playwright_generator.py:34 | only alphanumerics, spaces and underscores survive, and the result is no longer than the title |
| Generator.SafeNameShape | src/generators/playwright_generator.py:34-35 | the safe name has at most 50 characters, each a lowercase alphanumeric or `_` |
| Generator.SafeNameIdempotent | src/generators/playwright_generator.py:34-35 | sanitising an already safe name changes nothing |
| Generator.KeepAllSafe | src/generators/playwright_generator.py:34 | a title made only of safe characters is kept whole |
| Generator.SafeName | src/generators/playwright_generator.py:34-35 | the title with unsafe characters dropped, spaces turned into `_`, lowercased and cut to 50 characters |
| Generator.FileName | src/generators/playwright_generator.py:36 | `<suite>_<id>_<safe name>.py` |
| Generator.FileNameLayout | src/generators/playwright_generator.py:36 | the filename is `<suite>_<id>_<safe>.py` with `safe` of at most 50 characters |
| Generator.FunctionNameShape | src/generators/playwright_generator.py:102 | the test function is `test_` followed by the id, lowercased, with no `-` |
| Generator.EscapedQuotesArePreceded | src/generators/playwright_generator.py:213 | after escaping, every `"` is preceded by a backslash |
| Generator.EscapedNeverStartsWithQuote | src/generators/playwright_generator.py:243 | an escaped selector never starts with a bare `"` |
| Generator.UnescapeEscape | src/generators/playwright_generator.py:213 | escaping loses nothing: unescaping gives back the selector |
| Generator.EscapeQuotes | src/generators/playwright_generator.py:213 | every `"` replaced by a backslash and `"`, everything else kept |
| Generator.LazyEnd | src/generators/playwright_generator.py:188 | the lazy `(.*?)` ends at the first end of string, `.`, `,` or `)` with no newline before it, and fails at a newline |
| Generator.TryAt | src/generators/playwright_generator.py:187-191 | a keyword match yields a group free of `.`, `,` and `)` |
| Generator.MatchAt | src/generators/playwright_generator.py:187-191 | a match at a position has a group free of `.`, `,` and `)` |
| Generator.SelectorSearch | src/generators/playwright_generator.py:187-191 | `re.search` finds the leftmost position where the selector regex matches |
| Generator.CleanAll | src/generators/playwright_generator.py:195 | each split part is stripped and has `)` trimmed on the right, in order |
| Generator.CleanSelectorFree | src/generators/playwright_generator.py:195 | cleaning keeps a part free of stop characters |
| Generator.ExtractSelectorsShape | src/generators/playwright_generator.py:187-195 | at most one selector is extracted, and it contains no `,`, `.` or `)` |
| Generator.DotSelectorIsEmpty | src/generators/playwright_generator.py:188 | `CSS selector: .shopping_cart_link` extracts the empty selector |
| Generator.ExtractSelectors | src/generators/playwright_generator.py:187-195 | the comma-separated parts of the selector regex's group, each stripped and right-trimmed of `)`; none without a match |
| Generator.ActionKeywordsSplit | src/generators/playwright_generator.py:252-255 | the eight keywords of the wait test are exactly the fill, click and verify keywords |
| Generator.FillSelector | src/generators/playwright_generator.py:209-212 | the first extracted selector containing the keyword's first word, else the default selector |
| Generator.FillsFollowPresentFields | src/generators/playwright_generator.py:207-214 | one fill per field-map keyword present in the step, in map order, with escaped selector and the map's value |
| Generator.PresentFieldsMembers | src/generators/playwright_generator.py:207-208 | a field is used iff it is in the map and its keyword occurs in the lowercased step |
| Generator.FirstHeuristicFrom | src/generators/playwright_generator.py:229-232 | the selector of the first heuristic whose keyword occurs; None iff none occurs |
| Generator.ChooseHeuristic | src/generators/playwright_generator.py:229-232 | the heuristics loop with `break` returns the first matching heuristic's selector, else `""` |
| Generator.ButtonNameSpec | src/generators/playwright_generator.py:234-240 | the button name is the text after the first `'`, else after the first `"`, else `Submit` |
| Generator.ChooseClickSelector | src/generators/playwright_generator.py:217-241 | the click-selector code computes the click-selector function: last extracted, then heuristic, then button text |
| Generator.FillActionsAreFills | src/generators/playwright_generator.py:207-214 | the fill branch emits only fills |
| Generator.StepBranches | src/generators/playwright_generator.py:197-257 | a step emits a wait iff no action keyword occurs, a click iff a click keyword occurs, and an expectation iff a verify keyword occurs; fills only with a fill keyword |
| Generator.StepWait | src/generators/playwright_generator.py:251-257 | the wait is emitted iff none of the eight keywords occurs |
| Generator.StepClick | src/generators/playwright_generator.py:217 | a click is emitted iff `click`, `add` or `navigate` occurs |
| Generator.StepExpect | src/generators/playwright_generator.py:247-249 | the url expectation is emitted iff `verify` or `assert` occurs |
| Generator.StepFill | src/generators/playwright_generator.py:198 | fills are emitted only when `input`, `fill` or `enter` occurs |
| Generator.ClickPrefersExtracted | src/generators/playwright_generator.py:219-220 | with an extracted selector, the click uses the last one, escaped |
| Generator.ClickFallsBackToHeuristic | src/generators/playwright_generator.py:221-241 | without one, the click uses the first heuristic, or else the `button:has-text` selector built from the button name |
| Generator.ClickSelector | src/generators/playwright_generator.py:218-241 | the last extracted selector, else the first heuristic whose keyword occurs, else the `button:has-text` selector built from the button name |
| Generator.StepActions | src/generators/playwright_generator.py:183-257 | the statements of step number i: the fill, click, verify and wait segments, in that order, each present when its keywords occur |
| Generator.EmitStep | src/generators/playwright_generator.py:183-257 | the per-step code emits exactly the action list the step specification gives |
| Generator.EmitFills | src/generators/playwright_generator.py:201-214 | the field-map loop emits exactly the fills for the present fields |
| Generator.BranchesOverlap | src/generators/playwright_generator.py:197-249 | a step mentioning `click` and `verify` gets both a click and an expectation |
| Generator.DocLines | src/generators/playwright_generator.py:109-110 | the docstring has one line per step |
| Generator.DocLinesNumbered | src/generators/playwright_generator.py:109-110 | line k is step k, numbered from 1, in order |
| Generator.DocLineNumberReadsBack | src/generators/playwright_generator.py:109-110 | the number of the k-th docstring line is a decimal reading k+1 |
| Generator.ScriptIgnoresPassword | src/generators/playwright_generator.py:139-143 | the generated script does not depend on the password; it is read from `APP_PASSWORD` when the script runs |
| Generator.ScriptFor | src/generators/playwright_generator.py:75-278 | the script of a case: id, title, suite, function name, docstring lines, metadata name, fallback url and username, and every step's statements |
| Generator.ExitCode | src/generators/playwright_generator.py:273-275 | the interpreter exits 0 iff the `__main__` block completes, and 1 after an uncaught exception |
| Generator.ScriptOutput | src/generators/playwright_generator.py:146-267 | a run prints `Starting test`, then `Test PASSED ✓` after all steps or `Test FAILED ✗: <exc>`, then the final result |
| Generator.EchoesIff | src/generators/playwright_generator.py:183-257 | a text is printed by a run of statements iff one of them is the `print` of that text |
| Generator.ScriptOutputEchoes | src/generators/playwright_generator.py:146-267 | between the first line and the verdict, a run prints exactly the `print` texts it reached: all after every step, those before the raising statement otherwise |
| Generator.ClickEchoShowsSelector | src/generators/playwright_generator.py:243-244 | a click step prints `  → Clicking` with the selector as chosen, and clicks its escaped form, which unescapes back to that selector |
| Generator.StepInSteps | src/generators/playwright_generator.py:183-257 | every statement of step k + 1 is a statement of the script body |
| Generator.ClickLinePrinted | src/generators/playwright_generator.py:243-244 | after all steps ran, every click step's printed line shows its selector without escapes |
| Generator.PassSentinel | src/generators/playwright_generator.py:260-262 | the script returns `PASS` iff every step completed, and then its last line contains `PASS` |
| Generator.MetadataCredentials | src/generators/playwright_generator.py:58-66 | metadata records url and username from the credentials, and `""` for both without credentials |
| Generator.MetadataIgnoresPassword | src/generators/playwright_generator.py:58-66 | the metadata does not depend on the password |
| Generator.MetadataFor | src/generators/playwright_generator.py:58-66 | the metadata: suite, generation time, number of cases, script paths, and the url and username of the credentials (`""` without them) |
| Generator.PlaywrightGenerator.GenerateScript | src/generators/playwright_generator.py:24-42 | a case that converts, at a path the file system accepts, writes its script at `<dir>/<filename>` and returns that path; a case that does not convert, or a refused path, raises and writes nothing |
| Generator.PlaywrightGenerator.CreateScriptContent | src/generators/playwright_generator.py:75-278 | the script built is the script of the case: its docstring lines, metadata name, fallback url and username, and the actions of every step |
| Generator.PlaywrightGenerator.EmitSteps | src/generators/playwright_generator.py:183-257 | the per-step loop emits the actions of every step in order, numbering steps from 1 |
| Generator.PlaywrightGenerator.SaveTestMetadata | src/generators/playwright_generator.py:44-71 | writes the metadata at `<dir>/<suite>_metadata.json` and returns that path; when that path is refused, raises with the file system's message and writes nothing |
| Secrets.OrEnv | src/core/secrets_manager.py:26-28 | a truthy argument wins; otherwise the environment variable |
| Secrets.CacheFileFor | src/core/secrets_manager.py:33-37 | no cache file iff no username; otherwise `<dir>/` + at most 12 hash characters + `_session.json` |
| Secrets.CacheFileSharedIff | src/core/secrets_manager.py:34-35 | two users share a cache file iff their hashes agree on the first 12 characters |
| Secrets.FirstPresentFrom | src/core/secrets_manager.py:75-91 | the first selector from `i` on that has elements, with none before it |
| Secrets.FirstPresent | src/core/secrets_manager.py:75-91 | the first selector in list order that has elements; None iff no selector has any |
| Secrets.SelectorListsDisjoint | src/core/secrets_manager.py:55-66 | no user-field selector is a password-field selector |
| Secrets.LoginActions | src/core/secrets_manager.py:49-91 | the page actions of a login that does not raise: the navigation, the fills of the first present user and password selectors, and the click of the first present button |
| Secrets.Performed | src/core/secrets_manager.py:50-91 | a raise after k of the actions leaves exactly the first k of them, and all of them when nothing raises |
| Secrets.PerformedCons | src/core/secrets_manager.py:50-91 | a raise after k+1 actions performs the first action and then raises after k of the rest |
| Secrets.LoginActionsShape | src/core/secrets_manager.py:41-91 | login is one navigation followed by at most three actions. The username goes only into a user field and the password only into a password field. Clicks are on button selectors only |
| Secrets.FillFirstOk | src/core/secrets_manager.py:75-85 | a field list yields at most one fill, with that list's credential |
| Secrets.ClickFirstOk | src/core/secrets_manager.py:87-91 | the button list yields at most one click |
| Secrets.PasswordFillIff | src/core/secrets_manager.py:81-85 | the password is filled iff a password selector has elements, and then into the first such selector |
| Secrets.EscapeActions | src/core/secrets_manager.py:147-154 | two Escape presses; a keyboard failure stops them without an error |
| Secrets.SaveEffect | src/core/secrets_manager.py:159-170 | saving writes the cookies to the cache file and nothing else, even when chmod fails; with no cache file or a failed read or write, the disk is unchanged |
| Secrets.SavedFiles | src/core/secrets_manager.py:159-170 | the cache after `_save_session`: the cookie jar at the cache file, unless there is no cache file or reading the cookies or writing fails |
| Secrets.LoadWithoutCacheIsInert | src/core/secrets_manager.py:105-106 | with no cache file, or none on disk, loading returns False and changes neither page nor disk |
| Secrets.LoadCached | src/core/secrets_manager.py:97-130 | the effect of `try_load_cached_session`: result, files, page actions and cookies added, for each point at which the page may raise |
| Secrets.LoadValidIff | src/core/secrets_manager.py:108-130 | a cached session is valid iff the file holds cookies, the browser raises nothing and no login marker has elements |
| Secrets.LoadHealsCache | src/core/secrets_manager.py:115-130 | a valid load keeps the file; any other outcome deletes it |
| Secrets.LoadFaultNeverValid | src/core/secrets_manager.py:127-130 | an exception during validation never yields True |
| Secrets.SaveThenLoad | src/core/secrets_manager.py:97-121 | cookies just saved load back as the same cookies, and the page is opened at the login URL |
| Secrets.ClearThenLoad | src/core/secrets_manager.py:132-135 | after clearing, the file is gone and loading is inert |
| Secrets.ClearedFiles | src/core/secrets_manager.py:132-136 | the cache without the user's file, when there is one |
| Secrets.SecretsManager.constructor | src/core/secrets_manager.py:19-37 | credentials fall back to the environment and the cache file is derived from the username |
| Secrets.SecretsManager.FirstWithElements | src/core/secrets_manager.py:75-91 | the `for ... break` loop finds the first selector with elements |
| Secrets.SecretsManager.InjectLogin | src/core/secrets_manager.py:41-95 | without username or password, nothing happens. Otherwise the login actions run in order. A page call that raises stops them there, and the exception propagates without Escape presses or a session save. Otherwise Escape is pressed and the session saved |
| Secrets.SecretsManager.FillAndSubmit | src/core/secrets_manager.py:75-91 | fills the user field, fills the password field, then clicks the button, each on its first present selector; a page call that raises leaves exactly the actions before it |
| Secrets.SecretsManager.HandlePostLoginAlerts | src/core/secrets_manager.py:140-157 | presses Escape as the keyboard allows, then saves the session |
| Secrets.SecretsManager.SaveSession | src/core/secrets_manager.py:159-170 | the disk becomes the saved-files function of the cookies and the fault |
| Secrets.SecretsManager.TryLoadCachedSession | src/core/secrets_manager.py:97-130 | result, disk, page log and cookies are those of the cache-load specification |
| Secrets.SecretsManager.ClearCache | src/core/secrets_manager.py:132-136 | removes the cache file if present, and nothing else |
| Recorder.QuotedArgAt | src/agents/recorder_agent.py:407 | `["\']([^"\' ]+)["\']` matches a quote, a non-empty run without quotes or spaces, and a quote |
| Recorder.MatchAt | src/agents/recorder_agent.py:407-440 | each step regex matched at a position yields its groups: non-empty, free of quotes and spaces (of `"` and `\` for data-test) |
| Recorder.SearchFrom | src/agents/recorder_agent.py:407 | `re.search` returns the leftmost match position |
| Recorder.Groups | src/agents/recorder_agent.py:407 | the groups come from some matching position, and there are none iff no position matches |
| Recorder.CallArgFound | src/agents/recorder_agent.py:407-414 | `goto("<url>")` or `fill("<v>")` with a clean argument yields that argument |
| Recorder.QuotedArgStopsAtSpace | src/agents/recorder_agent.py:407 | a quoted argument containing a space does not match |
| Recorder.RoleNameWithSpaceFails | src/agents/recorder_agent.py:432 | `get_by_role("link", name="Open Menu")` does not match, because the name has a space |
| Recorder.LinesSteps | src/agents/recorder_agent.py:389-465 | each line contributes at most one step |
| Recorder.StepsFromCode | src/agents/recorder_agent.py:386-474 | never empty: the steps from the lines, or the single default step |
| Recorder.LinesStepsAppend | src/agents/recorder_agent.py:389-465 | lines are converted independently and in order |
| Recorder.LinesStepsOne | src/agents/recorder_agent.py:389-466 | one line gives its step, if any; skipped lines give none |
| Recorder.LineStep | src/agents/recorder_agent.py:394-462 | the step the `if`/`elif` chain gives one stripped line; None for a skipped or unrecognised line |
| Recorder.FillFieldNeverProduced | src/agents/recorder_agent.py:453 | `Fill field` is never produced, because any `page.fill(` line contains `.fill(` first |
| Recorder.GotoStep | src/agents/recorder_agent.py:406-409 | a goto line gives `Navigate to "<url>"` iff the regex matches, with a url free of quotes and spaces |
| Recorder.PlainClickStep | src/agents/recorder_agent.py:447-448 | a `.click()` line with neither `get_by_role` nor `data-test=` gives `Click element` |
| Recorder.DataTestClickStep | src/agents/recorder_agent.py:439-445 | with `data-test=`, the step is `Click <field>` on a match and `Click element` otherwise |
| Recorder.RoleClickStep | src/agents/recorder_agent.py:431-436 | with `get_by_role`, there is a step iff role and name match, namely `Click "<name>" <role>` |
| Recorder.RoleGroupsShape | src/agents/recorder_agent.py:432 | a role match has two groups, and the name has no quote or space |
| Recorder.FirstCodeFrom | src/agents/recorder_agent.py:275-277 | the first stripped line from `i` starting `import`, `from` or `async def` |
| Recorder.FirstCodeLine | src/agents/recorder_agent.py:275-280 | the first line whose stripped form starts with a code prefix, with no earlier one |
| Recorder.CodegenCodeIsSuffix | src/agents/recorder_agent.py:264-282 | the cleaned output is a suffix of the raw output starting at a line boundary, and it starts with a code line when not empty |
| Recorder.CodegenCode | src/agents/recorder_agent.py:264-282 | the codegen output from its first code line on, `""` without one |
| Recorder.ZFill | src/agents/recorder_agent.py:481 | `zfill(w)` pads with zeros on the left to length at least `w` |
| Recorder.TestId | src/agents/recorder_agent.py:481 | the id is `TC` followed by at least three digits |
| Recorder.TestIdValue | src/agents/recorder_agent.py:481 | the digits read as count + 1 |
| Recorder.StartAddsToSuite | src/agents/recorder_agent.py:479-480 | a new session of the suite raises that suite's count by exactly one |
| Recorder.SuiteSessions | src/agents/recorder_agent.py:479-480 | the ids of the sessions whose config names the suite |
| Recorder.CodegenCommand | src/agents/recorder_agent.py:52-74 | the command has 6 to 9 words |
| Recorder.CommandShape | src/agents/recorder_agent.py:52-74 | the command starts `playwright codegen -o <file> --target python-async`. `--viewport-size 1280,720` comes iff not headless. It ends with the URL iff the URL is non-empty |
| Recorder.RecorderAgent.constructor | src/agents/recorder_agent.py:24-25 | the agent shares the given session table |
| Recorder.RecorderAgent.GenerateTestId | src/agents/recorder_agent.py:476-481 | as written (Findings row 4): `TC` followed by digits reading one more than the number of sessions of the suite, the caller's own included |
| Recorder.AsWrittenFirstIsTC002 | src/agents/recorder_agent.py:476-481 | as written, a suite whose only session is the caller's numbers it `TC002` |
| Recorder.AsWrittenIdsCollide | src/agents/recorder_agent.py:476-481 | as written, two sessions of one suite in the table stop with one and the same id, at least `TC003` |
| Recorder.CountInSuite | src/agents/recorder_agent.py:479-480 | the suite's sessions among a list of ids, never more than the list's length |
| Recorder.CountInSuiteGrows | src/agents/recorder_agent.py:479-480 | a suite session at position i makes the count of the whole list exceed the count of the ids before it |
| Recorder.TestIdInjective | src/agents/recorder_agent.py:481 | different counts give different ids |
| Recorder.OrderedTestIdUnique | src/agents/recorder_agent.py:477 | corrected (Findings row 4): numbering by the suite's sessions started earlier, two sessions of one suite never share an id |
| Recorder.OrderedFirstIsTC001 | src/agents/recorder_agent.py:477 | corrected: the first session of a suite is `TC001` |
| Recorder.RecorderAgent.BuildCommand | src/agents/recorder_agent.py:52-74 | the `extend`/`append` sequence builds exactly the command function |
| Recorder.RecorderAgent.StartRecording | src/agents/recorder_agent.py:44-117 | a started process adds the session map entry and returns id and pid. A launch failure adds nothing and reports the error |
| Recorder.RecorderAgent.ParseCodegenOutput | src/agents/recorder_agent.py:254-282 | the loop computes the cleaned-output function |
| Recorder.RecorderAgent.CodeLines | src/agents/recorder_agent.py:272-280 | keeps the lines from the first code line on, or none |
| Recorder.RecorderAgent.ExtractStepsFromCode | src/agents/recorder_agent.py:374-474 | the loop computes the steps function, and the result is never empty |
| Audit.SepRun | src/security/audit_logger.py:131 | the greedy `["\s:=]+` run ends at the first non-separator |
| Audit.GreedyMatchIff | src/security/audit_logger.py:131-133 | the greedy matcher succeeds at a position iff some way of splitting the pattern matches there |
| Audit.SearchFromIff | src/security/audit_logger.py:137 | the search finds a match iff some position from `i` on matches |
| Audit.PatternSearchIff | src/security/audit_logger.py:136-138 | the search succeeds iff the pattern matches somewhere |
| Audit.PatternSearch | src/security/audit_logger.py:136-138 | whether the keyword's pattern matches somewhere in the lowercased text, scanning from the left |
| Audit.QuotedPasswordFlagged | src/security/audit_logger.py:131 | `password: "<word>` is matched |
| Audit.BareKeywordNotFlagged | src/security/audit_logger.py:131 | the bare word `password` is not matched |
| Audit.PatternFindingsIff | src/security/audit_logger.py:136-138 | there are no pattern findings iff no keyword pattern matches; at most one per pattern |
| Audit.LeakDetectedIff | src/security/audit_logger.py:114-143 | a leak is detected iff a registered value occurs in the lowercased text, the text's hash is registered, or a pattern matches; and iff the findings are non-empty |
| Audit.FindingsCount | src/security/audit_logger.py:114-138 | one substring finding per registered value found, followed by at most four more |
| Audit.Findings | src/security/audit_logger.py:114-138 | the findings in the order the three detectors add them: one per registered value found, the hash match, then one per matching pattern |
| Audit.Analysis | src/security/audit_logger.py:107-143 | the leak analysis: `leak_detected` iff there are findings, together with the findings |
| Audit.CaseInsensitiveDetection | src/security/audit_logger.py:117-120 | a registered secret appearing in any letter case is detected |
| Audit.HitsGrow | src/security/audit_logger.py:118-120 | a new registered value adds one hit exactly when it occurs in the text |
| Audit.Preview | src/security/audit_logger.py:66 | up to 300 characters are kept whole; longer text gives its first 300 characters followed by `...` |
| Audit.RequestEntryDetails | src/security/audit_logger.py:61-70 | leak details are None iff no leak was found, and otherwise hold the non-empty findings; an empty metadata becomes `{}` |
| Audit.RequestEntry | src/security/audit_logger.py:61-70 | the request line: time, prompt length, hash, preview, the metadata or `{}`, the leak flag and the details |
| Audit.CountsBound | src/security/audit_logger.py:160-162 | requests plus responses count every entry, and leaks never exceed requests |
| Audit.NoLeaksIff | src/security/audit_logger.py:162 | zero leaks iff no entry had a leak |
| Audit.CountsAppend | src/security/audit_logger.py:160-162 | each new entry raises exactly its own counter |
| Audit.TotalRequests | src/security/audit_logger.py:160 | the number of request entries |
| Audit.TotalResponses | src/security/audit_logger.py:161 | the number of response entries |
| Audit.TotalLeaks | src/security/audit_logger.py:162 | the number of request entries flagged as leaks |
| Audit.SubstringScan | src/security/audit_logger.py:116-120 | the loop over registered values records one finding per value found |
| Audit.PatternScan | src/security/audit_logger.py:128-138 | the loop over patterns records one finding per matching pattern, in order |
| Audit.AuditLogger.constructor | src/security/audit_logger.py:18-28 | the audit file is `<dir>/llm_audit_<timestamp>.jsonl`, and no credential is registered yet |
| Audit.AuditLogger.RegisterCredentials | src/security/audit_logger.py:32-45 | adds a hash and a lowercase copy only for a non-empty username or password |
| Audit.AuditLogger.CheckForLeaks | src/security/audit_logger.py:107-143 | the result is the analysis of the text against the registered sets |
| Audit.AuditLogger.LogLlmRequest | src/security/audit_logger.py:47-84 | appends exactly the request entry built from the analysis and returns it. When `open`/`write` raise, the error escapes and nothing is appended |
| Audit.AuditLogger.LogLlmResponse | src/security/audit_logger.py:86-105 | appends exactly one response entry, with length and preview. When the write raises, the error escapes and nothing is appended |
| Audit.AuditLogger.ComplianceCounts | src/security/audit_logger.py:153-162 | the report's three totals, with requests plus responses equal to the entry count and leaks at most requests |
| Audit.RegisteredPasswordFlagged | src/security/audit_logger.py:41-70 | a prompt containing a registered password is logged with a leak |
| Lifecycle.OfSessionMembers | src/core/lifecycle_logger.py:174 | the session filter keeps exactly that session's events, and the clear filter exactly the others |
| Lifecycle.OfSessionSplit | src/core/lifecycle_logger.py:198 | a session's events and the rest together are the whole store |
| Lifecycle.WithoutKeepsOthers | src/core/lifecycle_logger.py:197-198 | clearing one session leaves every other session's events as they were |
| Lifecycle.OfSessionAppend | src/core/lifecycle_logger.py:174 | filtering distributes over concatenation |
| Lifecycle.InsertNewestPerm | src/core/lifecycle_logger.py:179 | inserting into the sorted list keeps every element |
| Lifecycle.InsertNewestSorted | src/core/lifecycle_logger.py:179 | inserting keeps the list newest-first |
| Lifecycle.InsertNewestAt | src/core/lifecycle_logger.py:179 | among equal timestamps, the inserted event comes first, which is stability for the reversed sort |
| Lifecycle.SortNewestSpec | src/core/lifecycle_logger.py:179 | the sort is newest-first and a permutation. Events with one timestamp keep their order, as a stable `sorted(..., reverse=True)` does |
| Lifecycle.SortNewest | src/core/lifecycle_logger.py:179 | an insertion sort, newest first, that keeps equal timestamps in input order |
| Lifecycle.LimitedPrefix | src/core/lifecycle_logger.py:181-182 | a truthy limit gives Python's `[:limit]` prefix, negative limits included; None or 0 keeps all |
| Lifecycle.Limited | src/core/lifecycle_logger.py:181-182 | `events[:limit]` for a truthy limit, the events unchanged otherwise |
| Lifecycle.Query | src/core/lifecycle_logger.py:165-184 | the events of the scope, newest first, then limited |
| Lifecycle.QuerySpec | src/core/lifecycle_logger.py:165-184 | a query is newest-first and holds only events of the session; without a limit it is a permutation of them |
| Lifecycle.CountIsScopeSize | src/core/lifecycle_logger.py:205-207 | the event count is the number of events in scope |
| Lifecycle.AddNewSpec | src/core/lifecycle_logger.py:153-155 | an event is added only if its id is new; distinct ids are kept |
| Lifecycle.FileLoadSpec | src/core/lifecycle_logger.py:144-157 | loading a file keeps memory, keeps ids distinct and adds only the file's events. Every event before the first garbled line is present afterwards |
| Lifecycle.LoadAllSpec | src/core/lifecycle_logger.py:134-162 | loading every file keeps ids distinct and keeps what was in memory |
| Lifecycle.LoadAllCovers | src/core/lifecycle_logger.py:144-157 | an event of any file that comes before that file's first garbled line is present after loading |
| Lifecycle.FileLoad | src/core/lifecycle_logger.py:144-157 | one file read line by line: blank lines skipped, an event added when its id is new, the first garbled line ending the file |
| Lifecycle.LoadAll | src/core/lifecycle_logger.py:134-162 | the files loaded one after another, in listing order |
| Lifecycle.Listing | src/core/lifecycle_logger.py:141 | the listed files' contents, in the given sorted order |
| Lifecycle.StrLessTotal | src/core/lifecycle_logger.py:214 | string order is total and irreflexive |
| Lifecycle.StrLessTrans | src/core/lifecycle_logger.py:214 | string order is transitive |
| Lifecycle.InsertUniqueSpec | src/core/lifecycle_logger.py:213-214 | inserting into a strictly ascending list keeps it so and adds exactly the element |
| Lifecycle.SortUniqueSpec | src/core/lifecycle_logger.py:213-214 | sorting the set of ids gives an ascending list of exactly those ids |
| Lifecycle.SessionsSpec | src/core/lifecycle_logger.py:209-214 | the session list is strictly sorted and holds exactly the sessions that have events |
| Lifecycle.Sessions | src/core/lifecycle_logger.py:209-214 | `sorted(set(...))` of the events' session ids |
| Lifecycle.LifecycleLogger.constructor | src/core/lifecycle_logger.py:62-66 | the store starts empty with session `default` |
| Lifecycle.LifecycleLogger.StartSession | src/core/lifecycle_logger.py:81-90 | a given id becomes current and is returned; otherwise `session_<timestamp>` |
| Lifecycle.LifecycleLogger.LogEvent | src/core/lifecycle_logger.py:92-123 | appends exactly one event stamped with the current session. Earlier events are unchanged. The event is appended to its session file when the write succeeds |
| Lifecycle.LifecycleLogger.LoadEventsFromFiles | src/core/lifecycle_logger.py:134-162 | memory becomes the deduplicated load of the listed files |
| Lifecycle.LifecycleLogger.GetEvents | src/core/lifecycle_logger.py:164-184 | reloads only when memory is empty, then returns the query |
| Lifecycle.LifecycleLogger.ClearEvents | src/core/lifecycle_logger.py:192-202 | removes exactly the session's events, or all events without a session |
| Lifecycle.LifecycleLogger.GetEventCount | src/core/lifecycle_logger.py:204-207 | the count equals the length of the unlimited query |
| Lifecycle.LifecycleLogger.GetSessions | src/core/lifecycle_logger.py:209-214 | sorted, distinct, and exactly the sessions that have events |
| Lifecycle.LoadFile | src/core/lifecycle_logger.py:144-157 | the line loop with its `any(...)` check computes the file-load function |
| Lifecycle.LoggedEventIsListed | src/core/lifecycle_logger.py:103-117 | a logged event is returned by its session's query, and is added at the end of that session's events |
| Isolation.FlaggedIff | scripts/verify_credential_isolation.py:84-126 | an expression is flagged iff a Name or attribute it exposes has a suspicious name |
| Isolation.Flagged | scripts/verify_credential_isolation.py:84-126 | `_contains_credentials`: a Name or attribute name holding a suspicious word, looked for through attribute values, formatted f-string parts, `+` operands and positional `.format` arguments |
| Isolation.FormattedFlaggedIff | scripts/verify_credential_isolation.py:108-112 | an f-string is flagged iff some formatted part is flagged |
| Isolation.AnyFlaggedIff | scripts/verify_credential_isolation.py:120-124 | `.format(...)` is flagged iff some positional argument is flagged |
| Isolation.LiteralPartsIgnored | scripts/verify_credential_isolation.py:108-112 | literal parts of an f-string never flag it |
| Isolation.NameInIff | scripts/verify_credential_isolation.py:49-57 | a name is among the LLM names iff it is an element of the list, the membership test of lines 49-57 |
| Isolation.LlmMethodCall | scripts/verify_credential_isolation.py:47-52 | a method call on anything is an LLM call exactly when its attribute is one of `generate`, `run`, `invoke`, `chat` or `complete` |
| Isolation.IsLlmCall | scripts/verify_credential_isolation.py:47-57 | the call is an LLM call when its attribute is one of the five method names or its function one of the three function names |
| Isolation.ArgViolationsCount | scripts/verify_credential_isolation.py:61-69 | one violation per flagged positional argument |
| Isolation.KeywordViolationsCount | scripts/verify_credential_isolation.py:72-80 | one violation per flagged keyword argument |
| Isolation.ViolationsLabelled | scripts/verify_credential_isolation.py:37-42 | every violation is labelled with the enclosing function, or `<module>` at top level |
| Isolation.Violations | scripts/verify_credential_isolation.py:37-82 | everything the visit of a node appends, in order, labelled with the enclosing function |
| Isolation.AsyncDefKeepsOuterLabel | scripts/verify_credential_isolation.py:37-42 | violations inside `async def` keep the outer label, because only `FunctionDef` is tracked |
| Isolation.SuspiciousNameFlagged | scripts/verify_credential_isolation.py:94-97 | a Name is flagged iff its lowercased id contains one of the seven substrings |
| Isolation.InnocentName | scripts/verify_credential_isolation.py:94-97 | a name without any of the letters `u`, `p`, `c` and `s` is never flagged |
| Isolation.FStringOf | scripts/verify_credential_isolation.py:108-112 | an f-string of literals around one formatted value is flagged iff that value is |
| Isolation.OneArgumentCall | scripts/verify_credential_isolation.py:59-69 | an LLM call with one flagged argument reports one violation at its line, and a non-LLM call reports none |
| Isolation.OneKeywordCall | scripts/verify_credential_isolation.py:72-80 | the same for one keyword argument, naming the keyword |
| Isolation.CredentialLeakDetector.constructor | scripts/verify_credential_isolation.py:21-35 | a detector starts with no violations, outside any function |
| Isolation.CredentialLeakDetector.Visit | scripts/verify_credential_isolation.py:37-82 | a visit appends exactly the violations of the subtree, and the current function is restored afterwards |
| Isolation.CredentialLeakDetector.VisitFunctionDef | scripts/verify_credential_isolation.py:37-42 | the body's violations carry the function's name, and the outer name is restored |
| Isolation.CredentialLeakDetector.VisitCall | scripts/verify_credential_isolation.py:44-82 | the call's own violations, then those of its children |
| Isolation.CredentialLeakDetector.ReportCall | scripts/verify_credential_isolation.py:47-80 | an LLM call reports its flagged arguments, then its flagged keywords; other calls report nothing |
| Isolation.CredentialLeakDetector.ReportArgs | scripts/verify_credential_isolation.py:61-69 | the argument loop appends one violation per flagged argument, in order |
| Isolation.CredentialLeakDetector.ReportKeywords | scripts/verify_credential_isolation.py:72-80 | the keyword loop appends one violation per flagged keyword, in order |
| Isolation.CredentialLeakDetector.GenericVisit | scripts/verify_credential_isolation.py:82 | children are visited in field order |
| Isolation.CredentialLeakDetector.VisitAll | scripts/verify_credential_isolation.py:82 | visiting a list of children appends their violations in order |
| Isolation.CredentialLeakDetector.VisitKeywords | scripts/verify_credential_isolation.py:82 | visiting a call's keywords appends the violations inside their values, in order |
| Isolation.CredentialLeakDetector.VisitKeyword | scripts/verify_credential_isolation.py:82 | visiting one keyword appends the violations inside its value |
| Isolation.AnalyzeFile | scripts/verify_credential_isolation.py:128-150 | a parsed file gives the detector's violations; a syntax error or failed read gives `[]` |
| Isolation.FileViolations | scripts/verify_credential_isolation.py:128-150 | a parsed file's violations; `[]` for a syntax error or a failed read |
| Isolation.CheckAll | scripts/verify_credential_isolation.py:152-213 | collects every file's violations in order. Exits 1 when `src` is missing or there is any violation, else 0, and 0 iff every file is clean |
| Isolation.PassIff | scripts/verify_credential_isolation.py:188-213 | the combined list is empty iff every file's list is empty |

## Left out

- Transport and start-up: HTTP routing, templates, `load_suites`/`save_suites` persistence (`src/core/server.py:200`), uvicorn, and all logging and `print` output. None of it decides a result.
- The exploration agent and `execute_single_test`: they drive an external browser agent and an LLM. The agent's reply (`AgentReply`, including its failure) and the fallback's result (`Fallback`) are parameters.
- `json.loads` and `json.dumps`: `loads` is a parameter `string -> Option<Json>`. Values written to files are kept as the values they encode.
- `subprocess.run` in `execute_test`: its outcome is the parameter `ScriptRun` (completed with output and exit code, timed out, or failed). The 60-second timeout is the `TimedOut` case. The 500-character log line is not modelled.
- `glob.glob` and `Path.glob`: directory listings are parameters (`listing`, `names`, `paths`), in the order the source receives them.
- `log_crash`: the crash-report path is a parameter.
- Extractor.Flatten and the `Base` string functions: `str.lower`, `isalnum` and `isspace` are modelled for ASCII characters only; Unicode case mapping is not modelled.
- SHA-256 (`Digest`, `sha256Hex`), `datetime.now`, `uuid4` and `tempfile.gettempdir`: these are parameters. Timestamps in the lifecycle store are integers ordered as the datetimes are.
- Generator script text: the constant parts of the script (imports, browser launch, login block, the `Generated` line's clock, teardown) are not represented. The script is its title, ids, steps, docstring lines and action list. Running it in a browser is the parameter `RunEnd` (how the `try` block ends) inside `ScriptProcess` (whether `__main__` completes or an exception escapes).
- Generator.ScriptOutput: this is the script's own printed lines, not the browser's behaviour. A step that raises is the `RaisedAt` outcome.
- Generator.ScriptOutput, Server.GeneratedScriptRunPasses: title and step text are pasted unescaped into the script source (lines 146, 199, 248 and 256). A `"` in them makes the script fail to compile, and `{...}` in the title is evaluated by the f-string at line 146. The model assumes the script compiles and prints its title and steps verbatim. A script that does not compile is only covered as the `Uncaught` outcome, exit status 1. The click line of lines 243-244 prints the selector as chosen because its `\"` escapes read back as quotes; a backslash already in a selector, which the literal would also interpret, is not modelled.
- Generator.AsTestCase, Generator.StepTexts: `steps` given as a JSON object is treated as raising, although Python iterates the object's keys as the steps and writes the script. The model's objects are unordered maps, so that key order is not available. A `title` given as a list or object of strings is also treated as raising; Python would join its elements.
- Server.GlobMatch: the suite name and case id are matched literally. `glob.glob` at line 256 would expand `*`, `?` and `[...]` in them.
- Directory creation (`mkdir`) and file permissions beyond the session cache's `0o600` (the `ownerOnly` set) are not modelled. A directory that does not exist, such as the one a suite name containing `/` points into, shows up only as a refused path of `Disk`.
- Secrets: `asyncio.sleep` pauses are not modelled. Browser failures are parameters: `PageFault` for the cache load, the login fault of `InjectLogin` (after how many actions a page call raises), and the key fault of the Escape presses. Save failures are `SaveFault`. A cache file that is not valid cookie JSON is `Unreadable`.
- Recorder: `stop_recording` and `get_recording_status` are not modelled. They kill and poll the codegen process and read its output file, which is process control outside the computed core. `_convert_code_to_english_steps` is an LLM call that line 185 no longer uses. `RecorderLogger` calls are logging.
- Recorder.RecorderAgent.StartRecording: `subprocess.Popen` is the parameter `spawn`. The `process` object and the empty stdout/stderr lists of the session record are not kept.
- Audit: the compliance report's markdown text and review-date arithmetic (`src/security/audit_logger.py:165-256`) are not modelled. The report counts the entries this logger appended, so an audit file that already held lines from another run is not modelled. `str(response)` is taken to be the response text. A failed write is the parameter `writeFault`; the alert `print`s are not modelled.
- Lifecycle: pydantic validation and the convenience wrappers `log_user_action` … `log_test_execution` (`src/core/lifecycle_logger.py:217-276`) are not modelled. The wrappers only fix arguments of `log_event`. `get_current_session` is the `currentSessionId` field. A missing persistence directory is an empty listing.
- Isolation: `ast.parse` is the parameter `Source` (parsed tree, syntax error, or read failure). `ast.unparse` is the `code` text carried by each `Call`. The `format_spec` of f-string parts is not represented. Nodes the check does not distinguish are `Other`, with their children in field order. The report printing of `main` is not modelled.

## Findings

| source | as written | input that shows it | evidently intended | confidence | as-written member | corrected member |
|---|---|---|---|---|---|---|
| src/core/server.py:114 | `re.search` is called, but `re` is never imported (imports at lines 1-15), so reaching line 114 raises `NameError`; line 230 turns it into the `CRASH` case | agent output `Here you go:` + fenced ```` ```json ```` block holding `{"test_cases": [...]}`, which the direct parse rejects | methods 2 and 3 run and the fenced JSON is recovered | not executed | Extractor.AsWrittenFencedRaises (about Extractor.ExtractCasesAsWritten) | Extractor.FencedOutputLikeBare (about Extractor.ExtractCases) |
| src/core/server.py:255 | `execute_test` globs `generated_tests/<suite>_<id>_*.py`, but `generate_tests` writes its scripts under `data/generated_tests` (line 204) | suite `S` generated with case `TC001`: its script is `data/generated_tests/S_TC001_x.py`, and executing `TC001` never runs it | the glob looks in `data/generated_tests/` | not executed | Server.AsWrittenExecuteFallsBack (about Server.ExecuteTestAsWritten) | Server.GeneratedScriptIsFound (about Server.ExecuteTest) |
| src/core/server.py:224 | `save_test_metadata` is called without the credentials, so the metadata records url `""`. The generated script prefers the metadata (playwright_generator.py:134-137) and opens `""` | `APP_LOGIN_URL=https://example.test`: any generated suite's script navigates to `""` | the `credentials` dict of lines 207-211 is passed on | not executed | Server.AsWrittenMetadataBlanksUrl | Server.CorrectedMetadataKeepsUrl, Server.GeneratedSuiteRunsAgainstLoginUrl |
| src/agents/recorder_agent.py:476-481 | the docstring promises a unique id, but the count includes the caller's own session and `stop_recording` (line 193) never removes sessions | the first recording of suite `S` gets `TC002`; two recordings of `S` started before either stops both get `TC003` | each session of a suite gets its own number, the first `TC001` | not executed | Recorder.AsWrittenIdsCollide, Recorder.AsWrittenFirstIsTC002 (about Recorder.RecorderAgent.GenerateTestId) | Recorder.OrderedTestIdUnique, Recorder.OrderedFirstIsTC001 (about Recorder.OrderedTestId) |
