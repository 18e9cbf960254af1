/**
 * The two endpoints of the server: `generate_tests` (agent output to test
 * cases, the suite table, scripts and metadata) and `execute_test` (suite and
 * case lookup, script discovery, and the verdict).
 *
 * The agent, `log_crash`, the environment, the clock and the subprocess are
 * parameters; `TEST_SUITES` is a map field of `SuiteRegistry` and the script
 * directory is the `Disk` the generator writes.
 */
module Server {
  import opened Base
  import opened Json
  import opened Extractor
  import opened Generator

  // ---------------------------------------------------------------------------
  // generate_tests

  datatype GenerateRequest = GenerateRequest(suiteName: string, url: string, description: string, username: string, password: string)

  /** `req.dict()`, stored as the suite's `config`. */
  function RequestJson(req: GenerateRequest): (r: Json)
    ensures r.JObj? && "suite_name" in r.fields && r.fields["suite_name"] == JStr(req.suiteName)
  {
    JObj(map["suite_name" := JStr(req.suiteName), "url" := JStr(req.url), "description" := JStr(req.description),
             "username" := JStr(req.username), "password" := JStr(req.password)])
  }

  /** The entry `{"config": req.dict(), "cases": test_cases}`. */
  function SuiteEntry(req: GenerateRequest, cases: seq<Json>): Json {
    JObj(map["config" := RequestJson(req), "cases" := JArr(cases)])
  }

  /** What the agent call did: returned text (None for no result) or raised with a message. */
  datatype AgentReply = Replied(raw: Option<string>) | AgentRaised(message: string)

  /** The response body; `scriptsGenerated` is absent from the crash response. */
  datatype GenerateResponse = GenerateResponse(status: string, testCases: seq<Json>, scriptsGenerated: Option<nat>)

  /** The single case reported when the handler's `try` block raised. */
  function CrashCase(message: string, crashFile: string): (r: Json)
    ensures ValidCase(r) && r.fields["id"] == JStr("CRASH") && r.fields["title"] == JStr("Server Error")
    ensures r.fields["steps"] == StrList(["Internal error occurred: " + message, "Crash report: " + crashFile])
  {
    Case("CRASH", "Server Error", ["Internal error occurred: " + message, "Crash report: " + crashFile])
  }

  /** The result of the `try` block up to line 196: cases, or the message of the exception raised. */
  datatype Outcome = Extracted(cases: seq<Json>) | Crashed(message: string)

  function GenerateOutcome(reply: AgentReply, loads: Loads): Outcome {
    match reply
    case AgentRaised(m) => Crashed(m)
    case Replied(raw) =>
      match ExtractCases(raw, loads)
      case Cases(cs) => Extracted(cs)
      case Raised(e) => Crashed(Message(e))
  }

  /** The credentials dict of lines 207-211. */
  function EnvCredentials(env: map<string, string>): (r: Credentials)
    ensures r.Keys == {"url", "username", "password"}
    ensures r["url"] == GetEnv(env, "APP_LOGIN_URL")
  {
    map["url" := GetEnv(env, "APP_LOGIN_URL"), "username" := GetEnv(env, "APP_USERNAME"),
        "password" := GetEnv(env, "APP_PASSWORD")]
  }

  /** The directory `generate_tests` writes scripts to. */
  const DataDir: string := "data/generated_tests"

  /**
   * The disk after the script loop: each case that converts is written at a
   * path the file system accepts, later writes winning.  `refused` holds the
   * paths at which `write_text` raises.
   */
  function WriteScripts(files: map<string, FileContent>, refused: map<string, string>, suite: string, cases: seq<Json>,
                        creds: Credentials, now: string): map<string, FileContent>
    decreases |cases|
  {
    if cases == [] then files
    else WriteOne(WriteScripts(files, refused, suite, cases[..|cases| - 1], creds, now), refused, suite, cases[|cases| - 1], creds, now)
  }

  /** `generator.generate_script` on one case: its script written, or nothing when it raises. */
  function WriteOne(files: map<string, FileContent>, refused: map<string, string>, suite: string, c: Json,
                    creds: Credentials, now: string): map<string, FileContent> {
    match AsTestCase(c)
    case None => files
    case Some(tc) =>
      if ScriptPath(DataDir, suite, tc) in refused then files
      else files[ScriptPath(DataDir, suite, tc) := ScriptFile(ScriptFor(tc, suite, creds, now))]
  }

  /** The path `generate_script` returns for one case, if it returns. */
  function PathOf(refused: map<string, string>, suite: string, c: Json): seq<string> {
    match AsTestCase(c)
    case None => []
    case Some(tc) => if ScriptPath(DataDir, suite, tc) in refused then [] else [ScriptPath(DataDir, suite, tc)]
  }

  /** `generated_scripts`: the paths of the cases whose script was written, in case order. */
  function GeneratedPaths(refused: map<string, string>, suite: string, cases: seq<Json>): seq<string>
    decreases |cases|
  {
    if cases == [] then []
    else GeneratedPaths(refused, suite, cases[..|cases| - 1]) + PathOf(refused, suite, cases[|cases| - 1])
  }

  function MetadataPath(suite: string): string {
    DataDir + "/" + MetadataName(suite)
  }

  /** The metadata write of line 224 happens and raises: some script was written but the metadata path is refused. */
  predicate MetadataRaises(refused: map<string, string>, suite: string, cases: seq<Json>) {
    GeneratedPaths(refused, suite, cases) != [] && MetadataPath(suite) in refused
  }

  /** The disk after scripts and metadata. */
  function AfterGeneration(files: map<string, FileContent>, refused: map<string, string>, suite: string, cases: seq<Json>,
                           creds: Credentials, now: string): map<string, FileContent> {
    var written := WriteScripts(files, refused, suite, cases, creds, now);
    var paths := GeneratedPaths(refused, suite, cases);
    if paths == [] || MetadataPath(suite) in refused then written
    else written[MetadataPath(suite) := MetadataFile(MetadataFor(suite, cases, paths, Some(creds), now))]
  }

  /** Every suite entry the server creates: a dict with a config naming it and a list of valid cases. */
  predicate SuiteOk(name: string, entry: Json) {
    entry.JObj? && "config" in entry.fields && "cases" in entry.fields
    && entry.fields["config"].JObj? && "suite_name" in entry.fields["config"].fields
    && entry.fields["config"].fields["suite_name"] == JStr(name)
    && entry.fields["cases"].JArr?
    && forall c :: c in entry.fields["cases"].items ==> ValidCase(c)
  }

  predicate RegistryOk(suites: map<string, Json>) {
    forall name :: name in suites ==> SuiteOk(name, suites[name])
  }

  /** `TEST_SUITES` together with the disk the scripts go to. */
  class SuiteRegistry {
    var suites: map<string, Json>
    const disk: Disk

    predicate Valid()
      reads this
    {
      RegistryOk(suites)
    }

    constructor(disk: Disk)
      ensures suites == map[] && this.disk == disk && Valid()
    {
      suites := map[];
      this.disk := disk;
    }

    /**
     * `generate_tests`.  The response is always "success".  When extraction
     * raises, the only case is the CRASH case and neither the table nor the
     * disk changes.  Otherwise the suite entry is replaced and every case's
     * script is written where the file system allows it.  If the metadata
     * write then raises, the response is again the CRASH case, with the table
     * already updated and the scripts on disk; else the metadata is written
     * when some script was, and the count of scripts is reported.
     */
    method GenerateTests(req: GenerateRequest, env: map<string, string>, reply: AgentReply, loads: Loads,
                         now: string, crashFile: string) returns (resp: GenerateResponse)
      modifies this, disk
      ensures resp.status == "success"
      ensures GenerateOutcome(reply, loads).Crashed? ==>
        resp == GenerateResponse("success", [CrashCase(GenerateOutcome(reply, loads).message, crashFile)], None)
        && suites == old(suites) && disk.files == old(disk.files)
      ensures GenerateOutcome(reply, loads).Extracted? ==>
        var cs := GenerateOutcome(reply, loads).cases;
        suites == old(suites)[req.suiteName := SuiteEntry(req, cs)]
        && disk.files == AfterGeneration(old(disk.files), disk.refused, req.suiteName, cs, EnvCredentials(env), now)
        && (MetadataRaises(disk.refused, req.suiteName, cs) ==>
              resp == GenerateResponse("success", [CrashCase(disk.refused[MetadataPath(req.suiteName)], crashFile)], None))
        && (!MetadataRaises(disk.refused, req.suiteName, cs) ==>
              resp == GenerateResponse("success", cs, Some(|GeneratedPaths(disk.refused, req.suiteName, cs)|)))
      ensures old(Valid()) ==> Valid()
    {
      var outcome := RunExtraction(reply, loads);
      if outcome.Crashed? {
        return GenerateResponse("success", [CrashCase(outcome.message, crashFile)], None);
      }
      var testCases := outcome.cases;
      OutcomeCasesValid(reply, loads);
      RegistryOkUpdate(suites, req, testCases);
      suites := suites[req.suiteName := SuiteEntry(req, testCases)];
      var written := GenerateSuiteFiles(disk, req.suiteName, testCases, EnvCredentials(env), now);
      match written {
        case WriteRaised(message) =>
          resp := GenerateResponse("success", [CrashCase(message, crashFile)], None);
        case Wrote(_) =>
          resp := GenerateResponse("success", testCases, Some(|GeneratedPaths(disk.refused, req.suiteName, testCases)|));
      }
    }
  }

  /** Storing a suite of valid cases under its own name keeps the table well formed. */
  lemma RegistryOkUpdate(suites: map<string, Json>, req: GenerateRequest, cases: seq<Json>)
    requires forall c :: c in cases ==> ValidCase(c)
    ensures RegistryOk(suites) ==> RegistryOk(suites[req.suiteName := SuiteEntry(req, cases)])
  {
    assert SuiteOk(req.suiteName, SuiteEntry(req, cases));
  }

  /** The cases a successful extraction yields are non-empty and valid. */
  lemma OutcomeCasesValid(reply: AgentReply, loads: Loads)
    ensures GenerateOutcome(reply, loads).Extracted? ==>
      forall c :: c in GenerateOutcome(reply, loads).cases ==> ValidCase(c)
  {
    if reply.Replied? {
      ExtractionCasesValid(reply.raw, loads);
    }
  }

  /** Lines 96-196: the extraction chain, reassigning `parsed_json` strategy by strategy. */
  method RunExtraction(reply: AgentReply, loads: Loads) returns (outcome: Outcome)
    ensures outcome == GenerateOutcome(reply, loads)
  {
    match reply {
      case AgentRaised(m) =>
        outcome := Crashed(m);
      case Replied(raw) =>
        if raw.None? || raw.value == "" {
          outcome := Extracted([AgentFailedCase]);
        } else {
          var s := raw.value;
          var parsed := loads(s);
          if !IsTruthy(parsed) {
            var fenced := FencedParse(s, loads);
            if fenced.Some? {
              parsed := fenced;
            }
          }
          if !IsTruthy(parsed) {
            var marker := MarkerParse(s, loads);
            if marker.Some? {
              parsed := marker;
            }
          }
          assert parsed == ParsedJson(s, loads);
          if IsTruthy(parsed) {
            if !parsed.value.JObj? {
              outcome := Crashed(Message(AttributeError(TypeName(parsed.value), "get")));
            } else {
              var testCases := ValidateCases(TestCaseList(parsed.value.fields));
              if testCases == [] {
                testCases := [ManualReviewCase];
              }
              outcome := Extracted(testCases);
            }
          } else {
            outcome := Extracted([ParseErrorCase(s)]);
          }
        }
    }
  }

  /** The script loop's effect on one more case. */
  lemma WriteStep(files: map<string, FileContent>, refused: map<string, string>, suite: string, cases: seq<Json>, i: nat,
                  creds: Credentials, now: string)
    requires i < |cases|
    ensures WriteScripts(files, refused, suite, cases[..i + 1], creds, now)
         == WriteOne(WriteScripts(files, refused, suite, cases[..i], creds, now), refused, suite, cases[i], creds, now)
    ensures GeneratedPaths(refused, suite, cases[..i + 1]) == GeneratedPaths(refused, suite, cases[..i]) + PathOf(refused, suite, cases[i])
  {
    assert cases[..i + 1] == cases[..i] + [cases[i]];
    WriteScriptsSnoc(files, refused, suite, cases[..i], cases[i], creds, now);
    GeneratedPathsSnoc(refused, suite, cases[..i], cases[i]);
  }

  lemma WriteScriptsSnoc(files: map<string, FileContent>, refused: map<string, string>, suite: string, xs: seq<Json>, c: Json,
                         creds: Credentials, now: string)
    ensures WriteScripts(files, refused, suite, xs + [c], creds, now)
         == WriteOne(WriteScripts(files, refused, suite, xs, creds, now), refused, suite, c, creds, now)
  {
    var ys := xs + [c];
    assert ys[..|ys| - 1] == xs;
  }

  lemma GeneratedPathsSnoc(refused: map<string, string>, suite: string, xs: seq<Json>, c: Json)
    ensures GeneratedPaths(refused, suite, xs + [c]) == GeneratedPaths(refused, suite, xs) + PathOf(refused, suite, c)
  {
    var ys := xs + [c];
    assert ys[..|ys| - 1] == xs;
  }

  /**
   * The script loop reports at most one path per case; every path it reports
   * is one the file system accepted and now holds a script, and a refused path
   * that was not there before is still absent.
   */
  lemma {:induction false} GeneratedPathsWritten(files: map<string, FileContent>, refused: map<string, string>, suite: string,
                                                 cases: seq<Json>, creds: Credentials, now: string)
    ensures |GeneratedPaths(refused, suite, cases)| <= |cases|
    ensures forall p :: p in GeneratedPaths(refused, suite, cases) ==>
      p !in refused && p in WriteScripts(files, refused, suite, cases, creds, now)
      && WriteScripts(files, refused, suite, cases, creds, now)[p].ScriptFile?
    ensures forall p :: p in refused && p !in files ==> p !in WriteScripts(files, refused, suite, cases, creds, now)
    decreases |cases|
  {
    if cases != [] {
      var init := cases[..|cases| - 1];
      var last := cases[|cases| - 1];
      GeneratedPathsWritten(files, refused, suite, init, creds, now);
      var before := WriteScripts(files, refused, suite, init, creds, now);
      WriteOneKeeps(before, refused, suite, last, creds, now);
      assert GeneratedPaths(refused, suite, cases) == GeneratedPaths(refused, suite, init) + PathOf(refused, suite, last);
      assert WriteScripts(files, refused, suite, cases, creds, now) == WriteOne(before, refused, suite, last, creds, now);
    }
  }

  /** One case writes at most its own accepted path, with a script, and keeps every script already there. */
  lemma WriteOneKeeps(files: map<string, FileContent>, refused: map<string, string>, suite: string, c: Json,
                      creds: Credentials, now: string)
    ensures |PathOf(refused, suite, c)| <= 1
    ensures forall p :: p in PathOf(refused, suite, c) ==>
      p !in refused && p in WriteOne(files, refused, suite, c, creds, now) && WriteOne(files, refused, suite, c, creds, now)[p].ScriptFile?
    ensures forall p :: p in files && files[p].ScriptFile? ==>
      p in WriteOne(files, refused, suite, c, creds, now) && WriteOne(files, refused, suite, c, creds, now)[p].ScriptFile?
    ensures forall p :: p in refused && p !in files ==> p !in WriteOne(files, refused, suite, c, creds, now)
  {
  }

  /**
   * Lines 204-225: a script per case (failures skipped), then the metadata if
   * any script was written.  The result is the metadata path, or the message
   * of the exception the metadata write raises (which escapes to line 230);
   * without scripts it is `Wrote("")`.
   */
  method GenerateSuiteFiles(disk: Disk, suite: string, testCases: seq<Json>, creds: Credentials, now: string)
    returns (r: Written)
    modifies disk
    ensures r.WriteRaised? <==> MetadataRaises(disk.refused, suite, testCases)
    ensures r.WriteRaised? ==> r.message == disk.refused[MetadataPath(suite)]
    ensures disk.files == AfterGeneration(old(disk.files), disk.refused, suite, testCases, creds, now)
  {
    var generator := new PlaywrightGenerator(DataDir, disk);
    var generated := WriteAllScripts(generator, suite, testCases, creds, now);
    r := Wrote("");
    if generated != [] {
      r := generator.SaveTestMetadata(suite, testCases, generated, Some(creds), now);
    }
  }

  /** Lines 214-220: the script loop, collecting the paths written and skipping a case whose generation raises. */
  method WriteAllScripts(generator: PlaywrightGenerator, suite: string, testCases: seq<Json>, creds: Credentials, now: string)
    returns (generated: seq<string>)
    requires generator.outputDir == DataDir
    modifies generator.disk
    ensures generated == GeneratedPaths(generator.disk.refused, suite, testCases)
    ensures generator.disk.files == WriteScripts(old(generator.disk.files), generator.disk.refused, suite, testCases, creds, now)
  {
    generated := [];
    var i := 0;
    while i < |testCases|
      invariant 0 <= i <= |testCases|
      invariant generated == GeneratedPaths(generator.disk.refused, suite, testCases[..i])
      invariant generator.disk.files == WriteScripts(old(generator.disk.files), generator.disk.refused, suite, testCases[..i], creds, now)
      decreases |testCases| - i
    {
      var path := WriteCase(generator, suite, testCases[i], creds, now);
      WriteStep(old(generator.disk.files), generator.disk.refused, suite, testCases, i, creds, now);
      generated := generated + path;
      i := i + 1;
    }
    assert testCases[..i] == testCases;
  }

  /**
   * One iteration of the script loop: the path written as a list of one entry,
   * or no entry where `generate_script` raises (a case it cannot convert, a
   * refused path) and the `except` skips it.
   */
  method WriteCase(generator: PlaywrightGenerator, suite: string, c: Json, creds: Credentials, now: string)
    returns (path: seq<string>)
    requires generator.outputDir == DataDir
    modifies generator.disk
    ensures path == PathOf(generator.disk.refused, suite, c)
    ensures generator.disk.files == WriteOne(old(generator.disk.files), generator.disk.refused, suite, c, creds, now)
  {
    var r := generator.GenerateScript(c, suite, creds, now);
    path := if r.Some? then [r.value] else [];
  }

  /** The validation loop of lines 171-178. */
  method ValidateCases(xs: seq<Json>) returns (validated: seq<Json>)
    ensures validated == ValidCases(xs)
  {
    validated := [];
    var i := 0;
    while i < |xs|
      invariant 0 <= i <= |xs|
      invariant validated == ValidCases(xs[..i])
      decreases |xs| - i
    {
      ValidCasesAppend(xs[..i], [xs[i]]);
      assert xs[..i + 1] == xs[..i] + [xs[i]];
      if ValidCase(xs[i]) {
        validated := validated + [xs[i]];
      }
      i := i + 1;
    }
    assert xs[..i] == xs;
  }

  // ---------------------------------------------------------------------------
  // execute_test

  datatype ExecuteRequest = ExecuteRequest(suiteName: string, testCaseId: string)

  /** What `subprocess.run` did. */
  datatype ScriptRun = Completed(stdout: string, stderr: string, returnCode: int) | TimedOut | RunFailed

  /** What the AI fallback `execute_single_test` did. */
  datatype Fallback = Returned(result: Option<string>) | FallbackRaised

  /** The response; `Unhandled` is an exception that escapes the handler. */
  datatype ExecResponse =
    | ErrorStatus(message: string)
    | Success(result: string, output: Option<string>)
    | Unhandled

  /** The outcome of `next((tc for tc in cases if tc['id'] == id), None)`. */
  datatype Lookup = Found(tc: Json) | NotFound | LookupRaised

  /** The lookup over a list of cases: the first whose `id` equals the requested one. */
  function FindCase(cases: seq<Json>, id: string): (r: Lookup)
    ensures r.Found? ==> r.tc in cases && r.tc.JObj? && "id" in r.tc.fields && r.tc.fields["id"] == JStr(id)
    ensures r.NotFound? ==> forall c :: c in cases ==> c.JObj? && "id" in c.fields && c.fields["id"] != JStr(id)
    ensures r.LookupRaised? ==> exists c :: c in cases && !(c.JObj? && "id" in c.fields)
    decreases |cases|
  {
    if cases == [] then NotFound
    else if !(cases[0].JObj? && "id" in cases[0].fields) then LookupRaised
    else if cases[0].fields["id"] == JStr(id) then Found(cases[0])
    else FindCase(cases[1..], id)
  }

  /** Iterating `suite['cases']`: a list by its items, an empty string or dict as nothing, anything else raises. */
  function CaseLookup(cases: Json, id: string): Lookup {
    match cases
    case JArr(items) => FindCase(items, id)
    case JStr(s) => if s == "" then NotFound else LookupRaised
    case JObj(m) => if m == map[] then NotFound else LookupRaised
    case _ => LookupRaised
  }

  /** `glob` of `{dir}/{suite}_{id}_*.py`: the `*` stays inside one path component. */
  predicate GlobMatch(prefix: string, path: string) {
    |prefix| + 3 <= |path| && path[..|prefix|] == prefix && path[|path| - 3..] == ".py"
    && forall k :: |prefix| <= k < |path| - 3 ==> path[k] != '/'
  }

  function ScriptPrefix(dir: string, suite: string, id: string): string {
    dir + "/" + suite + "_" + id + "_"
  }

  /** The matching paths, in listing order. */
  function Matching(prefix: string, listing: seq<string>): (r: seq<string>)
    ensures forall p :: p in r <==> p in listing && GlobMatch(prefix, p)
  {
    if listing == [] then []
    else (if GlobMatch(prefix, listing[0]) then [listing[0]] else []) + Matching(prefix, listing[1..])
  }

  /** The verdict of a finished run. */
  function Verdict(output: string, returnCode: int): (r: string)
    ensures r == "PASS" <==> Contains(output, "PASS") || returnCode == 0
    ensures r == "PASS" || r == "FAIL"
  {
    if Contains(output, "PASS") || returnCode == 0 then "PASS" else "FAIL"
  }

  /** The response once a script was found and run. */
  function RunResponse(run: ScriptRun): (r: ExecResponse)
    ensures r.Success?
  {
    match run
    case Completed(out, err, rc) => Success(Verdict(out + err, rc), Some(TakeLast(out + err, 200)))
    case TimedOut => Success("TIMEOUT", None)
    case RunFailed => Success("ERROR", None)
  }

  /** The response when no script matched: the AI fallback's result, "FAIL" when empty. */
  function FallbackResponse(fallback: Fallback): ExecResponse {
    match fallback
    case FallbackRaised => Unhandled
    case Returned(r) => Success(if r.Some? && r.value != "" then r.value else "FAIL", None)
  }

  /** The case lookup of lines 244-252 on the suite table. */
  function LookupIn(suites: map<string, Json>, req: ExecuteRequest): (r: Option<Lookup>)
    ensures r.None? <==> req.suiteName !in suites || !Truthy(suites[req.suiteName])
  {
    if req.suiteName !in suites || !Truthy(suites[req.suiteName]) then None
    else
      var suite := suites[req.suiteName];
      if !suite.JObj? || "cases" !in suite.fields then Some(LookupRaised)
      else Some(CaseLookup(suite.fields["cases"], req.testCaseId))
  }

  /** `execute_test` with scripts looked up under `dir`. */
  function ExecuteIn(dir: string, suites: map<string, Json>, req: ExecuteRequest, listing: seq<string>,
                     run: ScriptRun, fallback: Fallback): ExecResponse {
    match LookupIn(suites, req)
    case None => ErrorStatus("Suite not found")
    case Some(LookupRaised) => Unhandled
    case Some(NotFound) => ErrorStatus("Test case not found")
    case Some(Found(_)) =>
      if Matching(ScriptPrefix(dir, req.suiteName, req.testCaseId), listing) == [] then FallbackResponse(fallback)
      else RunResponse(run)
  }

  /** `execute_test`, looking where `generate_tests` writes. */
  function ExecuteTest(suites: map<string, Json>, req: ExecuteRequest, listing: seq<string>,
                       run: ScriptRun, fallback: Fallback): ExecResponse {
    ExecuteIn(DataDir, suites, req, listing, run, fallback)
  }

  /** `execute_test` as written: it globs `generated_tests/`. */
  function ExecuteTestAsWritten(suites: map<string, Json>, req: ExecuteRequest, listing: seq<string>,
                                run: ScriptRun, fallback: Fallback): ExecResponse {
    ExecuteIn("generated_tests", suites, req, listing, run, fallback)
  }

  // ---------------------------------------------------------------------------
  // Properties of execute_test

  /** A missing (or empty) suite and a missing case give the two error responses. */
  lemma ExecuteErrors(suites: map<string, Json>, req: ExecuteRequest, listing: seq<string>, run: ScriptRun, fallback: Fallback)
    ensures req.suiteName !in suites ==> ExecuteTest(suites, req, listing, run, fallback) == ErrorStatus("Suite not found")
    ensures RegistryOk(suites) && req.suiteName in suites
            && (forall c :: c in suites[req.suiteName].fields["cases"].items ==> c.fields["id"] != JStr(req.testCaseId))
            ==> ExecuteTest(suites, req, listing, run, fallback) == ErrorStatus("Test case not found")
  {
    if RegistryOk(suites) && req.suiteName in suites {
      var e := suites[req.suiteName];
      assert SuiteOk(req.suiteName, e);
      assert Truthy(e) by { assert "config" in e.fields; }
      var items := e.fields["cases"].items;
      if forall c :: c in items ==> c.fields["id"] != JStr(req.testCaseId) {
        assert forall c :: c in items ==> ValidCase(c);
        FindCaseNone(items, req.testCaseId);
      }
    }
  }

  lemma {:induction false} FindCaseNone(cases: seq<Json>, id: string)
    requires forall c :: c in cases ==> c.JObj? && "id" in c.fields && c.fields["id"] != JStr(id)
    ensures FindCase(cases, id) == NotFound
    decreases |cases|
  {
    if cases != [] {
      assert cases[0] in cases;
      assert forall c :: c in cases[1..] ==> c in cases;
      FindCaseNone(cases[1..], id);
    }
  }

  /**
   * On a table the server built, an exception can escape `execute_test` only
   * from the AI fallback.
   */
  lemma ExecuteHandledOnValidTable(suites: map<string, Json>, req: ExecuteRequest, listing: seq<string>, run: ScriptRun, fallback: Fallback)
    requires RegistryOk(suites) && !fallback.FallbackRaised?
    ensures !ExecuteTest(suites, req, listing, run, fallback).Unhandled?
  {
    if req.suiteName in suites {
      var e := suites[req.suiteName];
      assert SuiteOk(req.suiteName, e);
      var items := e.fields["cases"].items;
      FindCaseNoRaise(items, req.testCaseId);
    }
  }

  lemma {:induction false} FindCaseNoRaise(cases: seq<Json>, id: string)
    requires forall c :: c in cases ==> ValidCase(c)
    ensures !FindCase(cases, id).LookupRaised?
    decreases |cases|
  {
    if cases != [] {
      assert cases[0] in cases;
      assert forall c :: c in cases[1..] ==> c in cases;
      FindCaseNoRaise(cases[1..], id);
    }
  }

  /** Once the case is found, a matching script is run and otherwise the fallback answers. */
  lemma ExecuteFoundCase(suites: map<string, Json>, req: ExecuteRequest, listing: seq<string>, run: ScriptRun, fallback: Fallback)
    requires LookupIn(suites, req).Some? && LookupIn(suites, req).value.Found?
    ensures Matching(ScriptPrefix(DataDir, req.suiteName, req.testCaseId), listing) != [] ==>
      ExecuteTest(suites, req, listing, run, fallback) == RunResponse(run)
    ensures Matching(ScriptPrefix(DataDir, req.suiteName, req.testCaseId), listing) == [] ==>
      ExecuteTest(suites, req, listing, run, fallback) == FallbackResponse(fallback)
  {
  }

  /**
   * A finished run: PASS exactly when the combined output mentions PASS or the
   * exit status is 0, FAIL otherwise, with the last 200 output characters.
   */
  lemma RunVerdict(out: string, err: string, rc: int)
    ensures var r := RunResponse(Completed(out, err, rc));
      (r.result == "PASS" <==> Contains(out + err, "PASS") || rc == 0)
      && (r.result == "PASS" || r.result == "FAIL")
      && r.output.Some? && |r.output.value| == (if 200 < |out + err| then 200 else |out + err|)
      && r.output.value == (out + err)[|out + err| - |r.output.value|..]
  {
  }

  /** Timeouts give TIMEOUT and other run failures ERROR, without output. */
  lemma RunFailures()
    ensures RunResponse(TimedOut) == Success("TIMEOUT", None)
    ensures RunResponse(RunFailed) == Success("ERROR", None)
  {
  }

  /** With no script, an empty fallback result is reported as FAIL and any other is passed through. */
  lemma FallbackResult(r: Option<string>)
    ensures r.None? || r.value == "" ==> FallbackResponse(Returned(r)) == Success("FAIL", None)
    ensures r.Some? && r.value != "" ==> FallbackResponse(Returned(r)) == Success(r.value, None)
    ensures FallbackResponse(FallbackRaised) == Unhandled
  {
  }

  /**
   * The run of a generated script is a PASS exactly when its `__main__` block
   * completes or the output mentions PASS.  A script whose `try` block failed
   * still completes `__main__`, so its run is a PASS although it returned "FAIL".
   */
  lemma GeneratedScriptRunPasses(p: ScriptProcess, stdout: string, stderr: string)
    ensures RunResponse(Completed(stdout, stderr, ExitCode(p))).result == "PASS"
        <==> p.MainCompleted? || Contains(stdout + stderr, "PASS")
    ensures p.MainCompleted? && p.end.RaisedAt? ==>
      ScriptResult(p.end) == "FAIL" && RunResponse(Completed(stdout, stderr, ExitCode(p))).result == "PASS"
  {
  }

  // ---------------------------------------------------------------------------
  // Findings: script directory and metadata credentials

  /** A script written by `generate_tests` is found by the corrected lookup. */
  lemma GeneratedScriptIsFound(suite: string, tc: TestCase)
    ensures GlobMatch(ScriptPrefix(DataDir, suite, tc.id), ScriptPath(DataDir, suite, tc))
  {
    var prefix := ScriptPrefix(DataDir, suite, tc.id);
    var safe := SafeName(tc.title);
    ScriptPathSplit(suite, tc);
    SafeNameShape(tc.title);
    forall k | 0 <= k < |safe| ensures safe[k] != '/' {
      assert SafeNameChar(safe[k]);
    }
    GlobMatchOf(prefix, safe);
  }

  lemma ScriptPathSplit(suite: string, tc: TestCase)
    ensures ScriptPath(DataDir, suite, tc) == ScriptPrefix(DataDir, suite, tc.id) + SafeName(tc.title) + ".py"
  {
  }

  /** The prefix, a name without `/` and `.py` match the pattern. */
  lemma GlobMatchOf(prefix: string, name: string)
    requires forall k :: 0 <= k < |name| ==> name[k] != '/'
    ensures GlobMatch(prefix, prefix + name + ".py")
  {
    var path := prefix + name + ".py";
    assert path[..|prefix|] == prefix;
    assert path[|path| - 3..] == ".py";
    forall k | |prefix| <= k < |path| - 3 ensures path[k] != '/' {
      assert path[k] == name[k - |prefix|];
    }
  }

  /** As written, no file under `data/` ever matches, so every execution of a generated case takes the fallback. */
  lemma AsWrittenGlobMissesDataDir(suite: string, id: string, path: string)
    requires StartsWith(path, DataDir + "/")
    ensures !GlobMatch(ScriptPrefix("generated_tests", suite, id), path)
  {
    var p := ScriptPrefix("generated_tests", suite, id);
    assert path[0] == 'd' by { assert path[..|DataDir| + 1] == DataDir + "/"; }
    assert p[0] == 'g';
  }

  /**
   * As written, when every script on disk is under `data/`, a found case is
   * never run: the AI fallback answers, whatever script `generate_tests` wrote.
   */
  lemma AsWrittenExecuteFallsBack(suites: map<string, Json>, req: ExecuteRequest, listing: seq<string>, run: ScriptRun, fallback: Fallback)
    requires forall p :: p in listing ==> StartsWith(p, DataDir + "/")
    ensures Matching(ScriptPrefix("generated_tests", req.suiteName, req.testCaseId), listing) == []
    ensures LookupIn(suites, req).Some? && LookupIn(suites, req).value.Found? ==>
      ExecuteTestAsWritten(suites, req, listing, run, fallback) == FallbackResponse(fallback)
  {
    var m := Matching(ScriptPrefix("generated_tests", req.suiteName, req.testCaseId), listing);
    if m != [] {
      assert m[0] in m;
      AsWrittenGlobMissesDataDir(req.suiteName, req.testCaseId, m[0]);
    }
  }

  /** The metadata file a script looks for is where `save_test_metadata` writes it. */
  lemma MetadataBesideScript(suite: string, tc: TestCase, creds: Credentials, now: string)
    ensures DataDir + "/" + ScriptFor(tc, suite, creds, now).metadataFile == DataDir + "/" + MetadataName(suite)
  {
  }

  /**
   * As written, `save_test_metadata` gets no credentials, so the metadata
   * records url "" and a generated script, which prefers the metadata, opens "".
   */
  lemma AsWrittenMetadataBlanksUrl(files: map<string, FileContent>, suite: string, tc: TestCase, cases: seq<Json>,
                                   paths: seq<string>, creds: Credentials, now: string)
    ensures var f := files[DataDir + "/" + MetadataName(suite) := MetadataFile(MetadataFor(suite, cases, paths, None, now))];
      RuntimeUrl(f, DataDir, ScriptFor(tc, suite, creds, now)) == Some("")
  {
  }

  /** With the credentials passed, the script opens the configured login URL. */
  lemma CorrectedMetadataKeepsUrl(files: map<string, FileContent>, suite: string, tc: TestCase, cases: seq<Json>,
                                  paths: seq<string>, env: map<string, string>, now: string)
    ensures var creds := EnvCredentials(env);
      var f := files[DataDir + "/" + MetadataName(suite) := MetadataFile(MetadataFor(suite, cases, paths, Some(creds), now))];
      RuntimeUrl(f, DataDir, ScriptFor(tc, suite, creds, now)) == GetEnv(env, "APP_LOGIN_URL")
  {
    var creds := EnvCredentials(env);
    assert "url" in creds;
  }

  /** After `generate_tests` wrote its metadata, every script it wrote runs against the configured login URL. */
  lemma GeneratedSuiteRunsAgainstLoginUrl(files: map<string, FileContent>, refused: map<string, string>, suite: string,
                                          cases: seq<Json>, env: map<string, string>, now: string, tc: TestCase)
    requires GeneratedPaths(refused, suite, cases) != [] && MetadataPath(suite) !in refused
    ensures var after := AfterGeneration(files, refused, suite, cases, EnvCredentials(env), now);
      RuntimeUrl(after, DataDir, ScriptFor(tc, suite, EnvCredentials(env), now)) == GetEnv(env, "APP_LOGIN_URL")
  {
    var creds := EnvCredentials(env);
    assert "url" in creds;
  }
}
