/**
 * The parts of `RecorderAgent` (src/agents/recorder_agent.py) that are
 * computation rather than process control: the `playwright codegen` command
 * line, the cleanup of codegen's output, the line-by-line conversion of the
 * recorded code into English steps, and the test-case id.
 *
 * The four regular expressions of `_extract_steps_from_code` are written out
 * as matchers at a position plus a leftmost search, as `re.search` runs them.
 */
module Recorder {
  import opened Base
  import opened Json

  // ---------------------------------------------------------------------------
  // Character classes of the step regexes
  // ---------------------------------------------------------------------------

  /** `["']`. */
  predicate IsQuote(c: char) {
    c == '"' || c == '\''
  }

  /** `[^"' ]`, the characters of a quoted argument. */
  predicate ArgChar(c: char) {
    !IsQuote(c) && c != ' '
  }

  /** `["\\]`, a double quote or a backslash. */
  predicate QuoteOrBackslash(c: char) {
    c == '"' || c == '\\'
  }

  /** `[^"\\]`, the characters of a `data-test` value. */
  predicate FieldChar(c: char) {
    !QuoteOrBackslash(c)
  }

  /** The end of the longest run of `inClass` characters starting at `i`: a greedy `[...]*`. */
  function SpanEnd(s: string, i: nat, inClass: char -> bool): (j: nat)
    requires i <= |s|
    ensures i <= j <= |s|
    ensures forall k :: i <= k < j ==> inClass(s[k])
    ensures j == |s| || !inClass(s[j])
    decreases |s| - i
  {
    if i < |s| && inClass(s[i]) then SpanEnd(s, i + 1, inClass) else i
  }

  /**
   * `["']([^"' ]+)["']` at offset `i`: the argument and the offset after the
   * closing quote.  The greedy run is the only one that can be followed by a
   * quote, so no backtracking alternative exists.
   */
  function QuotedArgAt(s: string, i: nat): (r: Option<(string, nat)>)
    requires i <= |s|
    ensures r.Some? ==>
      i + 3 <= r.value.1 <= |s| && IsQuote(s[i]) && IsQuote(s[r.value.1 - 1]) &&
      r.value.0 == s[i + 1..r.value.1 - 1]
    ensures r.Some? ==> r.value.0 != [] && forall k :: 0 <= k < |r.value.0| ==> ArgChar(r.value.0[k])
  {
    if i < |s| && IsQuote(s[i]) then
      var j := SpanEnd(s, i + 1, ArgChar);
      if j > i + 1 && j < |s| && IsQuote(s[j]) then Some((s[i + 1..j], j + 1)) else None
    else None
  }

  /** The four patterns of lines 407, 413, 416 and 432. */
  datatype Pattern =
    | GotoArg   // goto\(["']([^"' ]+)["']\)
    | FillArg   // fill\(["']([^"' ]+)["']\)
    | RoleName  // get_by_role\(["']([^"' ]+)["'], name=["']([^"' ]+)["']\)
    | DataTest  // data-test=["\\]*([^"\\]+)["\\]*

  /** One quoted argument after `head`, closed by `)`. */
  function CallArgAt(s: string, head: string, p: nat): Option<seq<string>>
    requires p <= |s|
  {
    if OccursAt(s, head, p) then
      match QuotedArgAt(s, p + |head|)
      case None => None
      case Some(a) => if a.1 < |s| && s[a.1] == ')' then Some([a.0]) else None
    else None
  }

  /** The groups of a match of `pat` starting at offset `p`, if one starts there. */
  function MatchAt(s: string, pat: Pattern, p: nat): (r: Option<seq<string>>)
    requires p <= |s|
    ensures r.Some? ==> |r.value| == (if pat.RoleName? then 2 else 1)
    ensures r.Some? ==> forall k :: 0 <= k < |r.value| ==> r.value[k] != []
    ensures r.Some? && !pat.DataTest? ==>
      forall k, m :: 0 <= k < |r.value| && 0 <= m < |r.value[k]| ==> ArgChar(r.value[k][m])
    ensures r.Some? && pat.DataTest? ==> forall m :: 0 <= m < |r.value[0]| ==> FieldChar(r.value[0][m])
  {
    match pat
    case GotoArg => CallArgAt(s, "goto(", p)
    case FillArg => CallArgAt(s, "fill(", p)
    case RoleName =>
      if OccursAt(s, "get_by_role(", p) then
        match QuotedArgAt(s, p + 12)
        case None => None
        case Some(role) =>
          if OccursAt(s, ", name=", role.1) then
            match QuotedArgAt(s, role.1 + 7)
            case None => None
            case Some(name) => if name.1 < |s| && s[name.1] == ')' then Some([role.0, name.0]) else None
          else None
      else None
    case DataTest =>
      if OccursAt(s, "data-test=", p) then
        var k := SpanEnd(s, p + 10, QuoteOrBackslash);
        var j := SpanEnd(s, k, FieldChar);
        if j > k then Some([s[k..j]]) else None
      else None
  }

  /** `re.search`: the leftmost offset, from `p` on, where a match starts. */
  function SearchFrom(s: string, pat: Pattern, p: nat): (r: Option<nat>)
    requires p <= |s|
    ensures r.Some? ==>
      p <= r.value <= |s| && MatchAt(s, pat, r.value).Some? &&
      forall q :: p <= q < r.value ==> MatchAt(s, pat, q).None?
    ensures r.None? ==> forall q :: p <= q <= |s| ==> MatchAt(s, pat, q).None?
    decreases |s| - p
  {
    if MatchAt(s, pat, p).Some? then Some(p)
    else if p == |s| then None
    else SearchFrom(s, pat, p + 1)
  }

  /** The groups of `re.search(pat, s)`, or None when it finds nothing. */
  function Groups(s: string, pat: Pattern): (r: Option<seq<string>>)
    ensures r.Some? ==> exists q :: 0 <= q <= |s| && MatchAt(s, pat, q) == r
    ensures r.None? <==> forall q :: 0 <= q <= |s| ==> MatchAt(s, pat, q).None?
  {
    match SearchFrom(s, pat, 0)
    case None => None
    case Some(q) => MatchAt(s, pat, q)
  }

  /** An occurrence of `a + b` is an occurrence of `a` followed by one of `b`. */
  lemma OccursSplit(s: string, a: string, b: string, p: int)
    requires OccursAt(s, a + b, p)
    ensures OccursAt(s, a, p) && OccursAt(s, b, p + |a|)
  {
    assert s[p..p + |a|] == s[p..p + |a + b|][..|a|];
    assert s[p + |a|..p + |a| + |b|] == s[p..p + |a + b|][|a|..];
  }

  lemma OccursChar(s: string, a: string, p: int, k: nat)
    requires OccursAt(s, a, p) && k < |a|
    ensures s[p + k] == a[k]
  {
    assert s[p..p + |a|][k] == s[p + k];
  }

  /** A run of class characters ended by a non-class character or the end is what the greedy star takes. */
  lemma {:induction false} SpanEndExact(s: string, i: nat, j: nat, inClass: char -> bool)
    requires i <= j <= |s| && (forall k :: i <= k < j ==> inClass(s[k])) && (j == |s| || !inClass(s[j]))
    ensures SpanEnd(s, i, inClass) == j
    decreases j - i
  {
    if i < j {
      SpanEndExact(s, i + 1, j, inClass);
    }
  }

  /** A quoted argument of the right shape at `i` is matched, up to its closing quote. */
  lemma QuotedArgFound(s: string, i: nat, q1: char, arg: string, q2: char)
    requires IsQuote(q1) && IsQuote(q2) && arg != [] && forall k :: 0 <= k < |arg| ==> ArgChar(arg[k])
    requires OccursAt(s, [q1] + arg + [q2], i)
    ensures QuotedArgAt(s, i) == Some((arg, i + |arg| + 2))
  {
    OccursSplit(s, [q1] + arg, [q2], i);
    OccursSplit(s, [q1], arg, i);
    OccursChar(s, [q1], i, 0);
    OccursChar(s, [q2], i + 1 + |arg|, 0);
    QuotedArgParts(s, i, arg);
  }

  /** The same, from the opening quote, the argument and the closing quote found one by one. */
  lemma QuotedArgParts(s: string, i: nat, arg: string)
    requires arg != [] && forall k :: 0 <= k < |arg| ==> ArgChar(arg[k])
    requires i + |arg| + 2 <= |s| && IsQuote(s[i]) && IsQuote(s[i + 1 + |arg|]) && OccursAt(s, arg, i + 1)
    ensures QuotedArgAt(s, i) == Some((arg, i + |arg| + 2))
  {
    forall k | i + 1 <= k < i + 1 + |arg|
      ensures ArgChar(s[k])
    {
      OccursChar(s, arg, i + 1, k - i - 1);
    }
    SpanEndExact(s, i + 1, i + 1 + |arg|, ArgChar);
  }

  /** A quoted single argument of the right shape is matched, with its text as the group. */
  lemma CallArgFound(s: string, head: string, p: nat, q1: char, arg: string, q2: char)
    requires IsQuote(q1) && IsQuote(q2) && arg != [] && forall k :: 0 <= k < |arg| ==> ArgChar(arg[k])
    requires OccursAt(s, head + ([q1] + arg + [q2]) + ")", p)
    ensures CallArgAt(s, head, p) == Some([arg])
  {
    OccursSplit(s, head + ([q1] + arg + [q2]), ")", p);
    OccursSplit(s, head, [q1] + arg + [q2], p);
    QuotedArgFound(s, p + |head|, q1, arg, q2);
    OccursChar(s, ")", p + |head| + |arg| + 2, 0);
  }

  /** A quoted argument whose text reaches a space before any quote is not matched. */
  lemma QuotedArgStopsAtSpace(s: string, b: nat, name: string)
    requires OccursAt(s, name, b + 1)
    requires ' ' in name && forall k :: 0 <= k < |name| ==> !IsQuote(name[k])
    ensures QuotedArgAt(s, b).None?
  {
    var m :| 0 <= m < |name| && name[m] == ' ';
    OccursChar(s, name, b + 1, m);
    var e := SpanEnd(s, b + 1, ArgChar);
    assert e <= b + 1 + m;
    if e < b + 1 + m {
      OccursChar(s, name, b + 1, e - b - 1);
    }
  }

  const RolePrefix: string := "get_by_role(\""
  const NameSep: string := "\", name=\""

  /**
   * `get_by_role("<role>", name="<name>")` with a space in the name (and no
   * quote in it) does not match there: the name's run stops at the space.
   */
  lemma RoleNameWithSpaceFails(s: string, p: nat, role: string, name: string)
    requires OccursAt(s, RolePrefix + role + NameSep + name + "\")", p)
    requires ' ' in name && forall k :: 0 <= k < |name| ==> !IsQuote(name[k])
    requires role != [] && forall k :: 0 <= k < |role| ==> ArgChar(role[k])
    ensures MatchAt(s, RoleName, p).None?
  {
    RoleLayout(s, p, role, name);
    var e := p + 14 + |role|;
    QuotedArgParts(s, p + 12, role);
    QuotedArgStopsAtSpace(s, e + 7, name);
    RoleMatchNone(s, p, role, e);
  }

  /** Where the parts of a `get_by_role("<role>", name="<name>")` call sit. */
  lemma RoleLayout(s: string, p: nat, role: string, name: string)
    requires OccursAt(s, RolePrefix + role + NameSep + name + "\")", p)
    ensures p + 23 + |role| + |name| <= |s|
    ensures OccursAt(s, "get_by_role(", p) && IsQuote(s[p + 12]) && OccursAt(s, role, p + 13)
    ensures IsQuote(s[p + 13 + |role|]) && OccursAt(s, ", name=", p + 14 + |role|)
    ensures OccursAt(s, name, p + 22 + |role|)
  {
    OccursSplit(s, RolePrefix + role + NameSep + name, "\")", p);
    OccursSplit(s, RolePrefix + role + NameSep, name, p);
    OccursSplit(s, RolePrefix + role, NameSep, p);
    OccursSplit(s, RolePrefix, role, p);
    OccursChar(s, RolePrefix, p, 12);
    OccursChar(s, NameSep, p + 13 + |role|, 0);
    assert OccursAt(s, "get_by_role(", p) by {
      assert RolePrefix == "get_by_role(" + "\"";
      OccursSplit(s, "get_by_role(", "\"", p);
    }
    assert OccursAt(s, ", name=", p + 14 + |role|) by {
      assert NameSep == "\"" + ", name=" + "\"";
      OccursSplit(s, "\"" + ", name=", "\"", p + 13 + |role|);
      OccursSplit(s, "\"", ", name=", p + 13 + |role|);
    }
  }

  /** The role argument matched, the separator present, and no name argument after it: no match. */
  lemma RoleMatchNone(s: string, p: nat, role: string, e: nat)
    requires p <= |s| && OccursAt(s, "get_by_role(", p) && QuotedArgAt(s, p + 12) == Some((role, e))
    requires OccursAt(s, ", name=", e) && QuotedArgAt(s, e + 7).None?
    ensures MatchAt(s, RoleName, p).None?
  {
  }

  // ---------------------------------------------------------------------------
  // Lines to steps (lines 381-472)
  // ---------------------------------------------------------------------------

  /** The lines of lines 394-401 that never contribute a step. */
  predicate Skipped(line: string) {
    line == [] || StartsWith(line, "import") || StartsWith(line, "from") ||
    StartsWith(line, "async def") || StartsWith(line, "async with") ||
    Contains(line, "await context.close()") || Contains(line, "await browser.close()") ||
    StartsWith(line, "#") || StartsWith(line, "\"\"\"")
  }

  /** `Enter "<value>" in ...` for a fill line (lines 411-424). */
  function FillStep(line: string): Option<string> {
    match Groups(line, FillArg)
    case None => None
    case Some(v) =>
      if Contains(line, "data-test=") then
        match Groups(line, DataTest)
        case Some(f) => Some("Enter \"" + v[0] + "\" in " + f[0] + " field")
        case None => Some("Enter \"" + v[0] + "\" in field")
      else Some("Enter \"" + v[0] + "\" in field")
  }

  /** The step of a `.click()` line (lines 427-448). */
  function ClickStep(line: string): Option<string> {
    if Contains(line, "get_by_role") then
      match Groups(line, RoleName)
      case Some(g) => Some("Click \"" + g[1] + "\" " + g[0])
      case None => None
    else if Contains(line, "data-test=") then
      match Groups(line, DataTest)
      case Some(f) => Some("Click " + f[0])
      case None => Some("Click element")
    else Some("Click element")
  }

  /** The step one stripped line contributes, if any: the `if`/`elif` chain of lines 394-462. */
  function LineStep(line: string): Option<string> {
    if Skipped(line) then None
    else if Contains(line, ".goto(") then
      match Groups(line, GotoArg)
      case Some(u) => Some("Navigate to \"" + u[0] + "\"")
      case None => None
    else if Contains(line, ".fill(") then FillStep(line)
    else if Contains(line, ".click()") then ClickStep(line)
    else if Contains(line, "page.click(") then Some("Click element")
    else if Contains(line, "page.fill(") then Some("Fill field")
    else if Contains(line, "page.type(") then Some("Type in field")
    else if Contains(line, "expect(") then Some("Verify element")
    else if Contains(line, "page.press(") then Some("Press key")
    else if Contains(line, "page.close()") then Some("Close page")
    else None
  }

  function OptList(o: Option<string>): (r: seq<string>)
    ensures |r| <= 1
  {
    if o.Some? then [o.value] else []
  }

  /** The steps of a list of raw lines, each stripped first, in line order. */
  function LinesSteps(lines: seq<string>): (r: seq<string>)
    ensures |r| <= |lines|
  {
    if lines == [] then []
    else LinesSteps(lines[..|lines| - 1]) + OptList(LineStep(Strip(lines[|lines| - 1])))
  }

  const DefaultStep: string := "Manual test steps - code recorded successfully"

  /** `_extract_steps_from_code`. */
  function StepsFromCode(code: string): (r: seq<string>)
    ensures r != []
    ensures |r| <= |Split(code, '\n')| || r == [DefaultStep]
  {
    var steps := LinesSteps(Split(code, '\n'));
    if steps == [] then [DefaultStep] else steps
  }

  /** The steps of consecutive blocks of lines are the steps of each block, in order. */
  lemma {:induction false} LinesStepsAppend(a: seq<string>, b: seq<string>)
    ensures LinesSteps(a + b) == LinesSteps(a) + LinesSteps(b)
    decreases |b|
  {
    if b == [] {
      assert a + b == a;
    } else {
      var b0 := b[..|b| - 1];
      assert (a + b)[..|a + b| - 1] == a + b0;
      assert (a + b)[|a + b| - 1] == b[|b| - 1];
      LinesStepsAppend(a, b0);
    }
  }

  /** Each line contributes its own step, or nothing; a skipped line contributes nothing. */
  lemma LinesStepsOne(line: string)
    ensures LinesSteps([line]) == OptList(LineStep(Strip(line)))
    ensures Skipped(Strip(line)) ==> LinesSteps([line]) == []
  {
    assert [line][..0] == [];
  }

  /** `p in s` implies that every suffix of p is in s. */
  lemma ContainsSuffix(s: string, p: string, k: nat)
    requires k <= |p| && Contains(s, p)
    ensures Contains(s, p[k..])
  {
    ContainsIff(s, p);
    var i :| OccursAt(s, p, i);
    assert s[i + k..i + k + |p[k..]|] == p[k..];
    assert OccursAt(s, p[k..], i + k);
    ContainsIff(s, p[k..]);
  }

  /**
   * The old-syntax `Fill field` step is never produced: any line containing
   * `page.fill(` also contains `.fill(` and takes the earlier branch.
   */
  lemma FillFieldNeverProduced(line: string)
    ensures LineStep(line) != Some("Fill field")
  {
    if Contains(line, "page.fill(") {
      ContainsSuffix(line, "page.fill(", 4);
      assert "page.fill("[4..] == ".fill(";
    }
    var r := LineStep(line);
    if r.Some? && !Skipped(line) && Contains(line, ".fill(") {
      var f := FillStep(line);
      assert f.Some? ==> f.value[0] == 'E';
    }
    if r.Some? && !Skipped(line) && !Contains(line, ".goto(") && !Contains(line, ".fill(") && Contains(line, ".click()") {
      var c := ClickStep(line);
      assert c.Some? ==> c.value[0] == 'C';
    }
  }

  /** A navigation step is produced exactly when the goto regex matches, and quotes its URL. */
  lemma GotoStep(line: string)
    requires !Skipped(line) && Contains(line, ".goto(")
    ensures LineStep(line).Some? <==> Groups(line, GotoArg).Some?
    ensures LineStep(line).Some? ==>
      var u := Groups(line, GotoArg).value[0];
      LineStep(line).value == "Navigate to \"" + u + "\"" && u != [] &&
      forall k :: 0 <= k < |u| ==> u[k] != '"' && u[k] != '\'' && u[k] != ' '
  {
    var g := Groups(line, GotoArg);
    if g.Some? {
      var q :| 0 <= q <= |line| && MatchAt(line, GotoArg, q) == g;
      assert forall k :: 0 <= k < |g.value[0]| ==> ArgChar(g.value[0][k]);
    }
  }

  /** A click line with neither `get_by_role` nor `data-test=` is `Click element`. */
  lemma PlainClickStep(line: string)
    requires !Skipped(line) && !Contains(line, ".goto(") && !Contains(line, ".fill(") && Contains(line, ".click()")
    requires !Contains(line, "get_by_role") && !Contains(line, "data-test=")
    ensures LineStep(line) == Some("Click element")
  {
  }

  /** A `data-test` click names its field, or is `Click element` when the value is empty. */
  lemma DataTestClickStep(line: string)
    requires !Skipped(line) && !Contains(line, ".goto(") && !Contains(line, ".fill(") && Contains(line, ".click()")
    requires !Contains(line, "get_by_role") && Contains(line, "data-test=")
    ensures Groups(line, DataTest).Some? ==> LineStep(line) == Some("Click " + Groups(line, DataTest).value[0])
    ensures Groups(line, DataTest).None? ==> LineStep(line) == Some("Click element")
  {
  }

  /** A `get_by_role` click yields a step only with a match, whose role and name hold no space or quote. */
  lemma RoleClickStep(line: string)
    requires !Skipped(line) && !Contains(line, ".goto(") && !Contains(line, ".fill(") && Contains(line, ".click()")
    requires Contains(line, "get_by_role")
    ensures LineStep(line).Some? <==> Groups(line, RoleName).Some?
    ensures LineStep(line).Some? ==>
      var g := Groups(line, RoleName).value;
      LineStep(line).value == "Click \"" + g[1] + "\" " + g[0] &&
      forall k :: 0 <= k < |g[1]| ==> g[1][k] != ' ' && !IsQuote(g[1][k])
  {
    assert LineStep(line) == ClickStep(line);
    RoleGroupsShape(line);
  }

  /** The groups of a `get_by_role` match hold only argument characters. */
  lemma RoleGroupsShape(line: string)
    ensures Groups(line, RoleName).Some? ==>
      |Groups(line, RoleName).value| == 2 &&
      forall k :: 0 <= k < |Groups(line, RoleName).value[1]| ==> ArgChar(Groups(line, RoleName).value[1][k])
  {
    var g := Groups(line, RoleName);
    if g.Some? {
      var q :| 0 <= q <= |line| && MatchAt(line, RoleName, q) == g;
      assert forall k :: 0 <= k < |g.value[1]| ==> ArgChar(g.value[1][k]);
    }
  }

  // ---------------------------------------------------------------------------
  // Codegen output (lines 254-282)
  // ---------------------------------------------------------------------------

  /** A stripped line from which on codegen's stdout is code. */
  predicate CodeText(t: string) {
    StartsWith(t, "import") || StartsWith(t, "from") || StartsWith(t, "async def")
  }

  /** Every line stripped, as the loop's `line.strip()` sees it. */
  function Stripped(lines: seq<string>): (r: seq<string>)
    ensures |r| == |lines| && forall k :: 0 <= k < |lines| ==> r[k] == Strip(lines[k])
  {
    seq(|lines|, k requires 0 <= k < |lines| => Strip(lines[k]))
  }

  /** The first code line from index `i` on, given the stripped lines. */
  function FirstCodeFrom(texts: seq<string>, i: nat): (r: Option<nat>)
    requires i <= |texts|
    ensures r.Some? ==> (i <= r.value < |texts| && CodeText(texts[r.value]) &&
      forall j :: i <= j < r.value ==> !CodeText(texts[j]))
    ensures r.None? ==> forall j :: i <= j < |texts| ==> !CodeText(texts[j])
    decreases |texts| - i
  {
    if i == |texts| then None
    else if CodeText(texts[i]) then Some(i)
    else FirstCodeFrom(texts, i + 1)
  }

  /** The first line whose stripped form starts with `import`, `from` or `async def`. */
  function FirstCodeLine(lines: seq<string>): (r: Option<nat>)
    ensures r.Some? ==> (r.value < |lines| && CodeText(Strip(lines[r.value])) &&
      forall j :: 0 <= j < r.value ==> !CodeText(Stripped(lines)[j]))
    ensures r.None? ==> forall j :: 0 <= j < |lines| ==> !CodeText(Stripped(lines)[j])
  {
    FirstCodeFrom(Stripped(lines), 0)
  }

  /** `_parse_codegen_output`: the lines from the first code line on, or "" without one. */
  function CodegenCode(raw: string): string {
    if raw == "" then ""
    else
      var lines := Split(raw, '\n');
      match FirstCodeLine(lines)
      case None => ""
      case Some(k) => Join(lines[k..], '\n')
  }

  /** Joining splits at the boundary between two non-empty blocks of parts. */
  lemma {:induction false} JoinAt(parts: seq<string>, c: char, k: nat)
    requires 0 < k < |parts|
    ensures Join(parts, c) == Join(parts[..k], c) + [c] + Join(parts[k..], c)
    decreases k
  {
    if k > 1 {
      JoinAt(parts[1..], c, k - 1);
      assert parts[1..][..k - 1] == parts[1..k];
      assert parts[1..][k - 1..] == parts[k..];
      assert parts[..k][1..] == parts[1..k];
    } else {
      assert parts[..k] == [parts[0]];
      assert parts[k..] == parts[1..];
    }
  }

  /** A block of parts from `k` on, joined, is a suffix of the whole join that starts after a separator. */
  lemma JoinSuffix(parts: seq<string>, c: char, k: nat) returns (pre: string)
    requires k < |parts|
    ensures Join(parts, c) == pre + Join(parts[k..], c)
    ensures pre == [] || pre[|pre| - 1] == c
  {
    if k == 0 {
      assert parts[k..] == parts;
      pre := [];
    } else {
      JoinAt(parts, c, k);
      pre := Join(parts[..k], c) + [c];
    }
  }

  /**
   * The cleaned output is a suffix of the raw output that starts at a line
   * boundary, and its first line is a code line.
   */
  lemma CodegenCodeIsSuffix(raw: string) returns (pre: string)
    ensures raw == pre + CodegenCode(raw)
    ensures CodegenCode(raw) != "" ==> pre == "" || pre[|pre| - 1] == '\n'
    ensures CodegenCode(raw) != "" ==> CodeText(Strip(Split(CodegenCode(raw), '\n')[0]))
  {
    if CodegenCode(raw) == "" {
      pre := raw;
      return;
    }
    var lines := Split(raw, '\n');
    var k := FirstCodeLine(lines).value;
    JoinSplit(raw, '\n');
    pre := JoinSuffix(lines, '\n', k);
    JoinFirst(lines[k..], '\n');
  }

  /** The first line of a joined block is its first part. */
  lemma JoinFirst(parts: seq<string>, c: char)
    requires parts != [] && forall k :: 0 <= k < |parts| ==> c !in parts[k]
    ensures Split(Join(parts, c), c)[0] == parts[0]
  {
    if |parts| > 1 {
      var rest := Join(parts[1..], c);
      SplitPrefix(parts[0], c, rest);
    } else {
      SplitNone(parts[0], c);
    }
  }

  /** Splitting `a + [c] + b` with no `c` in `a` starts with `a`. */
  lemma {:induction false} SplitPrefix(a: string, c: char, b: string)
    requires c !in a
    ensures Split(a + [c] + b, c)[0] == a
    decreases |a|
  {
    if a == [] {
      assert a + [c] + b == [c] + b;
    } else {
      var s := a + [c] + b;
      assert s[1..] == a[1..] + [c] + b;
      SplitPrefix(a[1..], c, b);
      assert a == [a[0]] + a[1..];
    }
  }

  // ---------------------------------------------------------------------------
  // Sessions, ids and the codegen command
  // ---------------------------------------------------------------------------

  /** An entry of `RECORDING_SESSIONS` as far as the model reads it. */
  datatype Session = Session(config: map<string, Json>, pid: int, status: string, startedAt: string, outputFile: string)

  /** `s.get("config", {}).get("suite_name") == suite_name`. */
  predicate InSuite(sess: Session, suite: string) {
    "suite_name" in sess.config && sess.config["suite_name"] == JStr(suite)
  }

  /** `str(n).zfill(w)` for a rendered natural number. */
  function ZFill(s: string, w: nat): (r: string)
    ensures |r| == if |s| < w then w else |s|
    ensures r[|r| - |s|..] == s && forall k :: 0 <= k < |r| - |s| ==> r[k] == '0'
  {
    var z := Repeat("0", w - |s|);
    assert forall k :: 0 <= k < |z| ==> z[k] == '0' by {
      RepeatZeros(w - |s|);
    }
    z + s
  }

  lemma {:induction false} RepeatZeros(n: int)
    ensures forall k :: 0 <= k < |Repeat("0", n)| ==> Repeat("0", n)[k] == '0'
    decreases n
  {
    if n > 0 {
      RepeatZeros(n - 1);
      assert Repeat("0", n) == "0" + Repeat("0", n - 1);
    }
  }

  /** The test id for a session count: `TC` and the count plus one, at least three digits. */
  function TestId(count: nat): (r: string)
    ensures |r| >= 5 && r[..2] == "TC"
    ensures forall k :: 2 <= k < |r| ==> IsDigit(r[k])
  {
    "TC" + ZFill(NatStr(count + 1), 3)
  }

  /** Leading zeros do not change `int(...)`. */
  lemma {:induction false} LeadingZero(s: string)
    requires AllDigits(s)
    ensures AllDigits("0" + s) && DigitsValue("0" + s) == DigitsValue(s)
    decreases |s|
  {
    var t := "0" + s;
    if s != [] {
      LeadingZero(s[..|s| - 1]);
      assert t[..|t| - 1] == "0" + s[..|s| - 1];
    }
  }

  lemma {:induction false} LeadingZeros(z: string, s: string)
    requires AllDigits(s) && forall k :: 0 <= k < |z| ==> z[k] == '0'
    ensures AllDigits(z + s) && DigitsValue(z + s) == DigitsValue(s)
    decreases |z|
  {
    if z != [] {
      assert z == "0" + z[1..];
      assert z + s == "0" + (z[1..] + s);
      LeadingZeros(z[1..], s);
      LeadingZero(z[1..] + s);
    } else {
      assert z + s == s;
    }
  }

  /** The id reads back as the count plus one. */
  lemma TestIdValue(count: nat)
    ensures AllDigits(TestId(count)[2..]) && DigitsValue(TestId(count)[2..]) == count + 1
  {
    var n := NatStr(count + 1);
    var z := ZFill(n, 3);
    var r := TestId(count);
    assert r[2..] == z;
    assert z == z[..|z| - |n|] + n;
    LeadingZeros(z[..|z| - |n|], n);
    NatStrValue(count + 1);
  }

  /** The sessions of a suite. */
  function SuiteSessions(sessions: map<string, Session>, suite: string): set<string> {
    set id | id in sessions && InSuite(sessions[id], suite)
  }

  /** Starting a session for a suite adds one to its count. */
  lemma StartAddsToSuite(sessions: map<string, Session>, suite: string, id: string, sess: Session)
    requires id !in sessions && InSuite(sess, suite)
    ensures |SuiteSessions(sessions[id := sess], suite)| == |SuiteSessions(sessions, suite)| + 1
  {
    assert SuiteSessions(sessions[id := sess], suite) == SuiteSessions(sessions, suite) + {id};
  }

  /** The ids among `ids` whose session belongs to the suite, counted in order. */
  function CountInSuite(ids: seq<string>, sessions: map<string, Session>, suite: string): (n: nat)
    ensures n <= |ids|
    decreases |ids|
  {
    if ids == [] then 0
    else CountInSuite(ids[..|ids| - 1], sessions, suite)
         + (if ids[|ids| - 1] in sessions && InSuite(sessions[ids[|ids| - 1]], suite) then 1 else 0)
  }

  /**
   * A numbering that keeps ids unique within a suite: the session at position
   * i of the table's insertion order is numbered one past the sessions of its
   * suite started before it.
   */
  function OrderedTestId(order: seq<string>, sessions: map<string, Session>, suite: string, i: nat): string
    requires i < |order|
  {
    TestId(CountInSuite(order[..i], sessions, suite))
  }

  /** The count grows by one for every suite session between two positions. */
  lemma {:induction false} CountInSuiteGrows(ids: seq<string>, sessions: map<string, Session>, suite: string, i: nat)
    requires i < |ids| && ids[i] in sessions && InSuite(sessions[ids[i]], suite)
    ensures CountInSuite(ids[..i], sessions, suite) < CountInSuite(ids, sessions, suite)
    decreases |ids|
  {
    if i < |ids| - 1 {
      var init := ids[..|ids| - 1];
      assert init[..i] == ids[..i];
      CountInSuiteGrows(init, sessions, suite, i);
    } else {
      assert ids[..|ids| - 1] == ids[..i];
    }
  }

  /** Different counts give different ids. */
  lemma TestIdInjective(a: nat, b: nat)
    requires a != b
    ensures TestId(a) != TestId(b)
  {
    TestIdValue(a);
    TestIdValue(b);
  }

  /** Under the ordered numbering, two sessions of one suite never share an id. */
  lemma OrderedTestIdUnique(order: seq<string>, sessions: map<string, Session>, suite: string, i: nat, j: nat)
    requires i < j < |order| && order[i] in sessions && InSuite(sessions[order[i]], suite)
    ensures OrderedTestId(order, sessions, suite, i) != OrderedTestId(order, sessions, suite, j)
  {
    var pre := order[..j];
    assert pre[..i] == order[..i] && pre[i] == order[i];
    CountInSuiteGrows(pre, sessions, suite, i);
    TestIdInjective(CountInSuite(order[..i], sessions, suite), CountInSuite(pre, sessions, suite));
  }

  /** Under the ordered numbering, the first session of a suite is `TC001`. */
  lemma OrderedFirstIsTC001(order: seq<string>, sessions: map<string, Session>, suite: string, i: nat)
    requires i < |order| && CountInSuite(order[..i], sessions, suite) == 0
    ensures OrderedTestId(order, sessions, suite, i) == "TC001"
  {
    assert ZFill("1", 3) == "001";
  }

  /** The output file of lines 56-58, os.path.join written as `/`. */
  function OutputFile(tempDir: string, sessionId: string): string {
    tempDir + "/playwright_recordings" + "/recording_" + sessionId + ".py"
  }

  /** `config.get("url", "")` when it is a string. */
  function StartUrl(config: map<string, Json>): string {
    if "url" in config && config["url"].JStr? then config["url"].s else ""
  }

  /** `config.get("headless", False)` as a condition. */
  predicate Headless(config: map<string, Json>) {
    "headless" in config && Truthy(config["headless"])
  }

  /** The command of lines 52-74. */
  function CodegenCommand(outputFile: string, headless: bool, url: string): (cmd: seq<string>)
    ensures 6 <= |cmd| <= 9
  {
    ["playwright", "codegen", "-o", outputFile, "--target", "python-async"]
    + (if headless then [] else ["--viewport-size", "1280,720"])
    + (if url != "" then [url] else [])
  }

  /** The fixed head, the viewport exactly when not headless, the URL last exactly when given. */
  lemma CommandShape(outputFile: string, headless: bool, url: string)
    ensures var cmd := CodegenCommand(outputFile, headless, url);
      cmd[..6] == ["playwright", "codegen", "-o", outputFile, "--target", "python-async"] &&
      (|cmd| >= 8 && cmd[6..8] == ["--viewport-size", "1280,720"] <==> !headless) &&
      (url != "" <==> |cmd| == 7 || |cmd| == 9) &&
      (url != "" ==> cmd[|cmd| - 1] == url)
  {
  }

  /** What `subprocess.Popen` does with the command: a process id, or the exception's text. */
  datatype Spawn = Spawned(pid: int) | SpawnError(message: string)

  /** The reply of `start_recording`, or the exception it raises. */
  datatype StartReply = Recording(sessionId: string, pid: int) | StartFailed(message: string)

  class RecorderAgent {
    var sessions: map<string, Session>

    constructor(sessions: map<string, Session>)
      ensures this.sessions == sessions
    {
      this.sessions := sessions;
    }

    /** `_generate_test_id`: counts this suite's sessions, the caller's own session included. */
    function GenerateTestId(suite: string): (r: string)
      reads this
      ensures |r| >= 5 && r[..2] == "TC"
      ensures AllDigits(r[2..]) && DigitsValue(r[2..]) == |SuiteSessions(sessions, suite)| + 1
    {
      TestIdValue(|SuiteSessions(sessions, suite)|);
      TestId(|SuiteSessions(sessions, suite)|)
    }

    /** The `cmd` list built by `extend`/`append` in lines 52-74. */
    method BuildCommand(outputFile: string, config: map<string, Json>) returns (cmd: seq<string>)
      ensures cmd == CodegenCommand(outputFile, Headless(config), StartUrl(config))
    {
      cmd := ["playwright", "codegen"];
      cmd := cmd + ["-o", outputFile];
      cmd := cmd + ["--target", "python-async"];
      if !Headless(config) {
        cmd := cmd + ["--viewport-size", "1280,720"];
      }
      var url := StartUrl(config);
      if url != "" {
        cmd := cmd + [url];
      }
    }

    /**
     * `start_recording` with the session id, the temporary directory, the
     * clock and the process launch given: the session is recorded once the
     * process starts.
     */
    method StartRecording(config: map<string, Json>, sessionId: string, tempDir: string, now: string,
                          spawn: seq<string> -> Spawn) returns (r: StartReply)
      modifies this
      ensures var out := OutputFile(tempDir, sessionId);
        match spawn(CodegenCommand(out, Headless(config), StartUrl(config)))
        case Spawned(pid) =>
          r == Recording(sessionId, pid) &&
          sessions == old(sessions)[sessionId := Session(config, pid, "recording", now, out)]
        case SpawnError(m) =>
          r == StartFailed("Failed to start Playwright codegen: " + m) && sessions == old(sessions)
    {
      var outputFile := OutputFile(tempDir, sessionId);
      var cmd := BuildCommand(outputFile, config);
      match spawn(cmd)
      case Spawned(pid) =>
        sessions := sessions[sessionId := Session(config, pid, "recording", now, outputFile)];
        r := Recording(sessionId, pid);
      case SpawnError(m) =>
        r := StartFailed("Failed to start Playwright codegen: " + m);
    }

    /** `_parse_codegen_output`: the `in_code` loop, then the join. */
    method ParseCodegenOutput(raw: string) returns (code: string)
      ensures code == CodegenCode(raw)
    {
      if raw == "" {
        return "";
      }
      var lines := Split(raw, '\n');
      var codeLines := CodeLines(lines);
      code := Join(codeLines, '\n');
    }

    /** The lines kept by the `in_code` loop of lines 273-280. */
    method CodeLines(lines: seq<string>) returns (codeLines: seq<string>)
      ensures FirstCodeLine(lines).None? ==> codeLines == []
      ensures FirstCodeLine(lines).Some? ==> codeLines == lines[FirstCodeLine(lines).value..]
    {
      ghost var texts := Stripped(lines);
      codeLines := [];
      var inCode := false;
      ghost var start: nat := 0;
      var i := 0;
      while i < |lines|
        invariant 0 <= i <= |lines|
        invariant !inCode ==> codeLines == [] && FirstCodeFrom(texts, 0) == FirstCodeFrom(texts, i)
        invariant inCode ==> start < i && FirstCodeFrom(texts, 0) == Some(start) && codeLines == lines[start..i]
        decreases |lines| - i
      {
        var line := Strip(lines[i]);
        assert line == texts[i];
        if CodeText(line) {
          if !inCode {
            start := i;
          }
          inCode := true;
        }
        if inCode {
          SliceSnoc(lines, start, i);
          codeLines := codeLines + [lines[i]];
        }
        i := i + 1;
      }
    }

    /** `_extract_steps_from_code`: the per-line loop, then the default step. */
    method ExtractStepsFromCode(code: string) returns (steps: seq<string>)
      ensures steps == StepsFromCode(code)
      ensures steps != []
    {
      var lines := Split(code, '\n');
      steps := [];
      var i := 0;
      while i < |lines|
        invariant 0 <= i <= |lines|
        invariant steps == LinesSteps(lines[..i])
        decreases |lines| - i
      {
        assert lines[..i + 1][..i] == lines[..i];
        var line := Strip(lines[i]);
        var step := LineStep(line);
        if step.Some? {
          steps := steps + [step.value];
        }
        i := i + 1;
      }
      assert lines[..i] == lines;
      if steps == [] {
        steps := [DefaultStep];
      }
    }
  }

  /**
   * As written, the caller's own session is counted, so the first recording
   * of a suite is numbered `TC002`.
   */
  lemma AsWrittenFirstIsTC002(agent: RecorderAgent, suite: string, sid: string)
    requires SuiteSessions(agent.sessions, suite) == {sid}
    ensures agent.GenerateTestId(suite) == "TC002"
  {
    assert ZFill("2", 3) == "002";
  }

  /**
   * As written, the id depends only on the suite's session count, and sessions
   * are never removed: two sessions of one suite in the table stop with the
   * same id, which is at least `TC003`.
   */
  lemma AsWrittenIdsCollide(agent: RecorderAgent, suite: string, a: string, b: string)
    requires a != b && a in agent.sessions && b in agent.sessions
    requires InSuite(agent.sessions[a], suite) && InSuite(agent.sessions[b], suite)
    ensures DigitsValue(agent.GenerateTestId(suite)[2..]) >= 3
  {
    assert {a, b} <= SuiteSessions(agent.sessions, suite);
    assert |{a, b}| == 2;
    SubsetCard({a, b}, SuiteSessions(agent.sessions, suite));
  }

  lemma SubsetCard<T>(x: set<T>, y: set<T>)
    requires x <= y
    ensures |x| <= |y|
  {
    assert y == x + (y - x);
  }
}
