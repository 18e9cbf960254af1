/**
 * `AuditLogger` of src/security/audit_logger.py: every prompt sent to the
 * model is scanned for registered credentials before it is recorded, and
 * every request and response becomes one entry of a JSON-lines audit trail.
 *
 * SHA-256 (`hashlib.sha256(...).hexdigest()`) is a parameter `Digest`, the
 * clock is a timestamp parameter, and the audit file is the sequence of
 * entries appended to it (each line being `json.dumps` of one entry).
 */
module Audit {
  import opened Base
  import opened Json

  /** `hashlib.sha256(s.encode()).hexdigest()`. */
  type Digest = string -> string

  // ---------------------------------------------------------------------------
  // The keyword patterns of lines 130-134

  /** The keywords the three suspicious patterns start with, in their order. */
  const Keywords: seq<string> := ["password", "username", "secret"]

  /** The pattern text as written, used in the finding's message. */
  function PatternText(kw: string): string {
    kw + "[\"\\s:=]+[\"\\']?[a-zA-Z0-9_]+"
  }

  /** The class `["\s:=]`. */
  predicate SepChar(c: char) {
    c == '"' || IsSpace(c) || c == ':' || c == '='
  }

  /** The class `["\']`. */
  predicate QuoteChar(c: char) {
    c == '"' || c == '\''
  }

  /**
   * What a match of `kw["\s:=]+["\']?[a-zA-Z0-9_]+` at offset i means: the
   * keyword, a non-empty run of separators up to j, q optional quote
   * characters (0 or 1), and a word character.  The trailing `+` needs only
   * its first character to match.
   */
  predicate MatchVia(s: string, kw: string, i: int, j: int, q: int) {
    OccursAt(s, kw, i) && i + |kw| < j && (q == 0 || q == 1) && j + q < |s|
    && (forall k :: i + |kw| <= k < j ==> SepChar(s[k]))
    && (q == 1 ==> QuoteChar(s[j])) && IsWordChar(s[j + q])
  }

  /** `re.search(pattern, s)` succeeds: the pattern matches at some offset. */
  ghost predicate PatternMatches(s: string, kw: string) {
    exists i, j, q :: MatchVia(s, kw, i, j, q)
  }

  /** The end of the maximal run of separators from k. */
  function SepRun(s: string, k: nat): (r: nat)
    requires k <= |s|
    ensures k <= r <= |s|
    ensures r == |s| || !SepChar(s[r])
    decreases |s| - k
  {
    if k < |s| && SepChar(s[k]) then SepRun(s, k + 1) else k
  }

  /** Everything in the run is a separator. */
  lemma {:induction false} SepRunSeps(s: string, k: nat)
    requires k <= |s|
    ensures forall m :: k <= m < SepRun(s, k) ==> SepChar(s[m])
    decreases |s| - k
  {
    if k < |s| && SepChar(s[k]) {
      SepRunSeps(s, k + 1);
    }
  }

  /** A run of separators from k to j is contained in the maximal one. */
  lemma {:induction false} SepRunPast(s: string, k: nat, j: nat)
    requires k <= j <= |s|
    requires forall m :: k <= m < j ==> SepChar(s[m])
    ensures j <= SepRun(s, k)
    decreases j - k
  {
    if k < j {
      SepRunPast(s, k + 1, j);
    }
  }

  /**
   * How the match at offset i is decided by the backtracking engine: after
   * the greedy separator run, either a word character, or a `'` and a word
   * character (a `"` is already part of the run).
   */
  predicate GreedyMatchAt(s: string, kw: string, i: nat) {
    OccursAt(s, kw, i) &&
    var e := SepRun(s, i + |kw|);
    i + |kw| < e < |s| &&
    (IsWordChar(s[e]) || (s[e] == '\'' && e + 1 < |s| && IsWordChar(s[e + 1])))
  }

  /** The scan over offsets i, i + 1, ..., |s|. */
  function SearchFrom(s: string, kw: string, i: nat): bool
    requires i <= |s|
    decreases |s| - i
  {
    GreedyMatchAt(s, kw, i) || (i < |s| && SearchFrom(s, kw, i + 1))
  }

  /** `re.search(kw + ..., s)` as the scan computes it. */
  function PatternSearch(s: string, kw: string): bool {
    SearchFrom(s, kw, 0)
  }

  /** The greedy decision at one offset is exactly the regex's meaning. */
  lemma GreedyMatchIff(s: string, kw: string, i: nat)
    ensures GreedyMatchAt(s, kw, i) <==> exists j, q :: MatchVia(s, kw, i, j, q)
  {
    if GreedyMatchAt(s, kw, i) {
      var e := SepRun(s, i + |kw|);
      SepRunSeps(s, i + |kw|);
      if IsWordChar(s[e]) {
        assert MatchVia(s, kw, i, e, 0);
      } else {
        assert MatchVia(s, kw, i, e, 1);
      }
    }
    if exists j, q :: MatchVia(s, kw, i, j, q) {
      var j, q :| MatchVia(s, kw, i, j, q);
      ViaIsGreedy(s, kw, i, j, q);
    }
  }

  lemma ViaIsGreedy(s: string, kw: string, i: nat, j: int, q: int)
    requires MatchVia(s, kw, i, j, q)
    ensures GreedyMatchAt(s, kw, i)
  {
    var b := i + |kw|;
    SepRunPast(s, b, j);
    var e := SepRun(s, b);
    SepRunSeps(s, b);
    if e > j {
      // s[j] is a separator, so it can only be the optional `"`, and the word character after it ends the run
      assert SepChar(s[j]);
      assert q == 1;
      assert !SepChar(s[j + 1]);
      assert e == j + 1;
    }
  }

  /** The scan succeeds iff the pattern matches at some offset from i on. */
  lemma {:induction false} SearchFromIff(s: string, kw: string, i: nat)
    requires i <= |s|
    ensures SearchFrom(s, kw, i) <==> exists m: nat :: i <= m <= |s| && GreedyMatchAt(s, kw, m)
    decreases |s| - i
  {
    if GreedyMatchAt(s, kw, i) {
      assert i <= i <= |s| && GreedyMatchAt(s, kw, i);
    } else if i < |s| {
      SearchFromIff(s, kw, i + 1);
      assert SearchFrom(s, kw, i) == SearchFrom(s, kw, i + 1);
      forall m: nat | i <= m <= |s| && GreedyMatchAt(s, kw, m) ensures i + 1 <= m <= |s| {
      }
    }
  }

  /** `re.search` as computed agrees with the pattern's meaning. */
  lemma PatternSearchIff(s: string, kw: string)
    ensures PatternSearch(s, kw) <==> PatternMatches(s, kw)
  {
    SearchFromIff(s, kw, 0);
    if PatternSearch(s, kw) {
      var m: nat :| m <= |s| && GreedyMatchAt(s, kw, m);
      GreedyMatchIff(s, kw, m);
      var j, q :| MatchVia(s, kw, m, j, q);
      assert MatchVia(s, kw, m, j, q);
    }
    if PatternMatches(s, kw) {
      var i, j, q :| MatchVia(s, kw, i, j, q);
      ViaIsGreedy(s, kw, i, j, q);
      assert 0 <= i <= |s|;
    }
  }

  /** A password assignment with a quoted value is flagged, e.g. `password: "x"`. */
  lemma QuotedPasswordFlagged(before: string, value: string, after: string)
    requires |value| > 0 && IsWordChar(value[0])
    ensures PatternMatches(before + "password: \"" + value + after, "password")
  {
    var s := before + "password: \"" + value + after;
    var i := |before|;
    assert s[i..i + 8] == "password";
    assert s[i + 8] == ':' && s[i + 9] == ' ' && s[i + 10] == '"';
    assert s[i + 11] == value[0];
    assert MatchVia(s, "password", i, i + 11, 0);
  }

  /** The keyword alone, with no separator and value after it, is not flagged. */
  lemma BareKeywordNotFlagged()
    ensures !PatternMatches("password", "password")
  {
    forall i, j, q ensures !MatchVia("password", "password", i, j, q) {
    }
  }

  // ---------------------------------------------------------------------------
  // `_check_for_leaks` (lines 107-143)

  const SubstringFinding := "Substring match: credential appears in text"
  const HashFinding := "Hash match: entire text matches a credential"

  function PatternFinding(kw: string): string {
    "Pattern match: text contains '" + PatternText(kw) + "'"
  }

  datatype LeakAnalysis = LeakAnalysis(leakDetected: bool, details: seq<string>)

  /** The registered values occurring in the lowered text. */
  function Hits(subs: set<string>, lower: string): set<string> {
    set v | v in subs && Contains(lower, v)
  }

  /** n copies of a finding. */
  function Copies(n: nat, x: string): (r: seq<string>)
    ensures |r| == n && forall k :: 0 <= k < n ==> r[k] == x
  {
    seq(n, _ => x)
  }

  /** The pattern findings for the keywords `kws` in order. */
  function PatternFindings(lower: string, kws: seq<string>): seq<string>
    decreases |kws|
  {
    if kws == [] then []
    else
      var kw := kws[|kws| - 1];
      PatternFindings(lower, kws[..|kws| - 1]) + (if PatternSearch(lower, kw) then [PatternFinding(kw)] else [])
  }

  /** The findings in the order the three methods add them. */
  function Findings(subs: set<string>, hashes: set<string>, digest: Digest, text: string): seq<string> {
    var lower := Lower(text);
    Copies(|Hits(subs, lower)|, SubstringFinding)
    + (if digest(text) in hashes then [HashFinding] else [])
    + PatternFindings(lower, Keywords)
  }

  function Analysis(subs: set<string>, hashes: set<string>, digest: Digest, text: string): LeakAnalysis {
    var f := Findings(subs, hashes, digest, text);
    LeakAnalysis(|f| > 0, f)
  }

  /** Each keyword whose pattern matches contributes its finding, and nothing else is added. */
  lemma {:induction false} PatternFindingsIff(lower: string, kws: seq<string>)
    ensures PatternFindings(lower, kws) == [] <==> forall k :: 0 <= k < |kws| ==> !PatternMatches(lower, kws[k])
    ensures |PatternFindings(lower, kws)| <= |kws|
    decreases |kws|
  {
    if kws != [] {
      var init := kws[..|kws| - 1];
      var kw := kws[|kws| - 1];
      PatternFindingsIff(lower, init);
      PatternSearchIff(lower, kw);
      assert forall k :: 0 <= k < |init| ==> init[k] == kws[k];
    }
  }

  /**
   * A leak is reported exactly when a registered value occurs in the text
   * whatever its case, or the text's digest is a registered one, or one of
   * the three keyword patterns matches the lowered text.
   */
  lemma LeakDetectedIff(subs: set<string>, hashes: set<string>, digest: Digest, text: string)
    ensures Analysis(subs, hashes, digest, text).leakDetected <==>
      (exists v :: v in subs && Contains(Lower(text), v)) ||
      digest(text) in hashes ||
      (exists k :: 0 <= k < |Keywords| && PatternMatches(Lower(text), Keywords[k]))
    ensures Analysis(subs, hashes, digest, text).leakDetected <==> Analysis(subs, hashes, digest, text).details != []
  {
    var lower := Lower(text);
    PatternFindingsIff(lower, Keywords);
    if exists v :: v in subs && Contains(lower, v) {
      var v :| v in subs && Contains(lower, v);
      assert v in Hits(subs, lower);
    }
    if Hits(subs, lower) != {} {
      var v :| v in Hits(subs, lower);
      assert v in subs && Contains(lower, v);
    }
  }

  /** One substring finding per distinct registered value found, at most one hash finding, at most three pattern findings. */
  lemma FindingsCount(subs: set<string>, hashes: set<string>, digest: Digest, text: string)
    ensures var n := |Findings(subs, hashes, digest, text)|;
      |Hits(subs, Lower(text))| <= n <= |Hits(subs, Lower(text))| + 4
    ensures forall k :: 0 <= k < |Hits(subs, Lower(text))| ==> Findings(subs, hashes, digest, text)[k] == SubstringFinding
  {
    PatternFindingsIff(Lower(text), Keywords);
  }

  /** A text in which a registered value occurs in any letter case is flagged. */
  lemma CaseInsensitiveDetection(subs: set<string>, hashes: set<string>, digest: Digest, text: string, secret: string)
    requires Lower(secret) in subs && Contains(text, secret)
    ensures Analysis(subs, hashes, digest, text).leakDetected
  {
    ContainsIff(text, secret);
    var i :| OccursAt(text, secret, i);
    var a, b := text[..i], text[i + |secret|..];
    assert text == a + secret + b;
    LowerAppend(a + secret, b);
    LowerAppend(a, secret);
    ContainsInfix(Lower(a), Lower(secret), Lower(b));
    LeakDetectedIff(subs, hashes, digest, text);
  }

  /** Adding one more value to the values already checked. */
  lemma HitsGrow(seen: set<string>, v: string, lower: string)
    requires v !in seen
    ensures |Hits(seen + {v}, lower)| == |Hits(seen, lower)| + (if Contains(lower, v) then 1 else 0)
  {
    if Contains(lower, v) {
      assert Hits(seen + {v}, lower) == Hits(seen, lower) + {v};
    } else {
      assert Hits(seen + {v}, lower) == Hits(seen, lower);
    }
  }

  // ---------------------------------------------------------------------------
  // Entries (lines 61-70, 94-100) and the report's counters (lines 160-162)

  const PreviewLength := 300

  /** `s[:300] + "..." if len(s) > 300 else s`. */
  function Preview(s: string): (r: string)
    ensures |r| <= PreviewLength + 3
    ensures |s| <= PreviewLength ==> r == s
    ensures |s| > PreviewLength ==> |r| == PreviewLength + 3 && r[..PreviewLength] == s[..PreviewLength] && r[PreviewLength..] == "..."
  {
    if |s| > PreviewLength then s[..PreviewLength] + "..." else s
  }

  /** One line of the audit file. */
  datatype Entry =
    | Request(timestamp: string, promptLength: nat, promptHash: string, promptPreview: string,
              metadata: Json, leakDetected: bool, leakDetails: Option<seq<string>>)
    | Response(timestamp: string, requestHash: string, responseLength: nat, responsePreview: string)

  function RequestEntry(now: string, prompt: string, digest: Digest, metadata: Option<Json>, a: LeakAnalysis): Entry {
    Request(now, |prompt|, digest(prompt), Preview(prompt), OrEmptyDict(metadata), a.leakDetected,
            if a.leakDetected then Some(a.details) else None)
  }

  /** The entry's details are present exactly on a leak, and then list every finding. */
  lemma RequestEntryDetails(now: string, prompt: string, digest: Digest, metadata: Option<Json>,
                            subs: set<string>, hashes: set<string>)
    ensures var e := RequestEntry(now, prompt, digest, metadata, Analysis(subs, hashes, digest, prompt));
      (e.leakDetails.None? <==> !e.leakDetected) &&
      (e.leakDetails.Some? ==> e.leakDetails.value == Findings(subs, hashes, digest, prompt) && e.leakDetails.value != [])
    ensures RequestEntry(now, prompt, digest, metadata, Analysis(subs, hashes, digest, prompt)).metadata.JObj? ==
      (metadata.None? || !Truthy(metadata.value) || metadata.value.JObj?)
  {
  }

  /** `sum(1 for e in entries if e['type'] == 'LLM_REQUEST')`. */
  function TotalRequests(entries: seq<Entry>): nat {
    if entries == [] then 0 else TotalRequests(entries[..|entries| - 1]) + (if entries[|entries| - 1].Request? then 1 else 0)
  }

  function TotalResponses(entries: seq<Entry>): nat {
    if entries == [] then 0 else TotalResponses(entries[..|entries| - 1]) + (if entries[|entries| - 1].Response? then 1 else 0)
  }

  /** `e.get('leak_detected', False)`: responses carry no flag. */
  predicate Leaked(e: Entry) {
    e.Request? && e.leakDetected
  }

  function TotalLeaks(entries: seq<Entry>): nat {
    if entries == [] then 0 else TotalLeaks(entries[..|entries| - 1]) + (if Leaked(entries[|entries| - 1]) then 1 else 0)
  }

  /** Every entry is a request or a response, and only requests count as leaks. */
  lemma {:induction false} CountsBound(entries: seq<Entry>)
    ensures TotalRequests(entries) + TotalResponses(entries) == |entries|
    ensures TotalLeaks(entries) <= TotalRequests(entries)
    decreases |entries|
  {
    if entries != [] {
      CountsBound(entries[..|entries| - 1]);
    }
  }

  /** A report shows no leak exactly when no request entry was flagged. */
  lemma {:induction false} NoLeaksIff(entries: seq<Entry>)
    ensures TotalLeaks(entries) == 0 <==> forall k :: 0 <= k < |entries| ==> !Leaked(entries[k])
    decreases |entries|
  {
    if entries != [] {
      var init := entries[..|entries| - 1];
      NoLeaksIff(init);
      assert forall k :: 0 <= k < |init| ==> init[k] == entries[k];
    }
  }

  /** Appending one entry moves exactly its own counter (and the leak counter when it is flagged). */
  lemma CountsAppend(entries: seq<Entry>, e: Entry)
    ensures TotalRequests(entries + [e]) == TotalRequests(entries) + (if e.Request? then 1 else 0)
    ensures TotalResponses(entries + [e]) == TotalResponses(entries) + (if e.Response? then 1 else 0)
    ensures TotalLeaks(entries + [e]) == TotalLeaks(entries) + (if Leaked(e) then 1 else 0)
  {
    assert (entries + [e])[..|entries|] == entries;
  }

  /** Lines 117-120: one finding per registered value found, whatever order the set is walked in. */
  method SubstringScan(subs: set<string>, lower: string) returns (findings: seq<string>)
    ensures findings == Copies(|Hits(subs, lower)|, SubstringFinding)
  {
    findings := [];
    var rest := subs;
    ghost var seen: set<string> := {};
    while rest != {}
      invariant rest + seen == subs && rest !! seen
      invariant findings == Copies(|Hits(seen, lower)|, SubstringFinding)
      decreases |rest|
    {
      var v :| v in rest;
      HitsGrow(seen, v, lower);
      if Contains(lower, v) {
        findings := findings + [SubstringFinding];
      }
      rest := rest - {v};
      seen := seen + {v};
    }
    assert seen == subs;
  }

  /** Lines 130-138: the pattern loop over the three keywords. */
  method PatternScan(lower: string) returns (findings: seq<string>)
    ensures findings == PatternFindings(lower, Keywords)
  {
    findings := [];
    for k := 0 to |Keywords|
      invariant findings == PatternFindings(lower, Keywords[..k])
    {
      assert Keywords[..k + 1][..k] == Keywords[..k];
      if PatternSearch(lower, Keywords[k]) {
        findings := findings + [PatternFinding(Keywords[k])];
      }
    }
    assert Keywords[..|Keywords|] == Keywords;
  }

  // ---------------------------------------------------------------------------
  // The logger

  /** What `log_llm_request` gives back: the entry it appended, or the write error it raised. */
  datatype Logged = Appended(entry: Entry) | AppendRaised(message: string)

  class AuditLogger {
    const auditFile: string
    const digest: Digest
    var credentialHashes: set<string>
    var credentialSubstrings: set<string>
    /** The entries appended to the audit file, read back in order. */
    var entries: seq<Entry>

    /** Lines 18-28: the file is named after the creation time `stamp` (`%Y%m%d_%H%M%S`). */
    constructor(auditDir: string, stamp: string, digest: Digest)
      ensures auditFile == auditDir + "/llm_audit_" + stamp + ".jsonl" && this.digest == digest
      ensures credentialHashes == {} && credentialSubstrings == {} && entries == []
    {
      auditFile := auditDir + "/llm_audit_" + stamp + ".jsonl";
      this.digest := digest;
      credentialHashes := {};
      credentialSubstrings := {};
      entries := [];
    }

    /** Lines 32-43: a non-empty user name or password adds its digest and its lowered text. */
    method RegisterCredentials(username: string, password: string)
      modifies this
      ensures credentialHashes == old(credentialHashes)
        + (if username != "" then {digest(username)} else {})
        + (if password != "" then {digest(password)} else {})
      ensures credentialSubstrings == old(credentialSubstrings)
        + (if username != "" then {Lower(username)} else {})
        + (if password != "" then {Lower(password)} else {})
      ensures entries == old(entries)
    {
      if username != "" {
        credentialHashes := credentialHashes + {digest(username)};
        credentialSubstrings := credentialSubstrings + {Lower(username)};
      }
      if password != "" {
        credentialHashes := credentialHashes + {digest(password)};
        credentialSubstrings := credentialSubstrings + {Lower(password)};
      }
    }

    /** Lines 107-143: the three detection methods, appending findings as they go. */
    method CheckForLeaks(text: string) returns (r: LeakAnalysis)
      ensures r == Analysis(credentialSubstrings, credentialHashes, digest, text)
    {
      var lower := Lower(text);
      var findings := SubstringScan(credentialSubstrings, lower);
      if digest(text) in credentialHashes {
        findings := findings + [HashFinding];
      }
      var patterns := PatternScan(lower);
      findings := findings + patterns;
      r := LeakAnalysis(|findings| > 0, findings);
    }

    /**
     * Lines 47-84: the request is scanned, then its entry appended to the file
     * and returned. `writeFault` is the error `open`/`write` raise, if any: it
     * escapes, nothing is appended and no alert is printed.
     */
    method LogLlmRequest(prompt: string, metadata: Option<Json>, now: string, writeFault: Option<string>)
      returns (r: Logged)
      modifies this
      ensures writeFault.None? ==>
        r == Appended(RequestEntry(now, prompt, digest, metadata, Analysis(credentialSubstrings, credentialHashes, digest, prompt)))
        && entries == old(entries) + [r.entry]
      ensures writeFault.Some? ==> r == AppendRaised(writeFault.value) && entries == old(entries)
      ensures credentialHashes == old(credentialHashes) && credentialSubstrings == old(credentialSubstrings)
    {
      var analysis := CheckForLeaks(prompt);
      var entry := Request(now, |prompt|, digest(prompt), Preview(prompt), OrEmptyDict(metadata), analysis.leakDetected,
                           if analysis.leakDetected then Some(analysis.details) else None);
      if writeFault.Some? {
        return AppendRaised(writeFault.value);
      }
      entries := entries + [entry];
      r := Appended(entry);
    }

    /** Lines 86-105: the response's text, linked to the request's digest; a failed write escapes as `raised`. */
    method LogLlmResponse(response: string, requestHash: string, now: string, writeFault: Option<string>)
      returns (raised: Option<string>)
      modifies this
      ensures raised == writeFault
      ensures entries == if writeFault.None? then old(entries) + [Response(now, requestHash, |response|, Preview(response))]
                         else old(entries)
      ensures credentialHashes == old(credentialHashes) && credentialSubstrings == old(credentialSubstrings)
    {
      raised := writeFault;
      if writeFault.None? {
        entries := entries + [Response(now, requestHash, |response|, Preview(response))];
      }
    }

    /** Lines 153-162: the report's three totals over the file's entries. */
    method ComplianceCounts() returns (requests: nat, responses: nat, leaks: nat)
      ensures requests == TotalRequests(entries) && responses == TotalResponses(entries) && leaks == TotalLeaks(entries)
      ensures requests + responses == |entries| && leaks <= requests
    {
      CountsBound(entries);
      requests, responses, leaks := TotalRequests(entries), TotalResponses(entries), TotalLeaks(entries);
    }
  }

  /** After registering a password, a request that contains it in any letter case is logged as a leak. */
  lemma RegisteredPasswordFlagged(subs: set<string>, hashes: set<string>, digest: Digest, password: string,
                                  prompt: string, now: string, metadata: Option<Json>)
    requires password != "" && Lower(password) in subs && Contains(prompt, password)
    ensures Leaked(RequestEntry(now, prompt, digest, metadata, Analysis(subs, hashes, digest, prompt)))
  {
    CaseInsensitiveDetection(subs, hashes, digest, prompt, password);
  }
}
