/**
 * `PlaywrightGenerator`: turns one validated test-case dict into a Playwright
 * script and a suite's list of scripts into a metadata file.
 *
 * The emitted script is modelled as a record (`Script`) whose `actions` list
 * holds one entry per statement the per-step logic emits; the constant parts
 * of the script text (imports, browser launch, login block) are the same for
 * every script and are not represented.  The file system is a `Disk` whose
 * `files` map a path to what was written there and whose `refused` paths
 * make `write_text` raise.
 */
module Generator {
  import opened Base
  import opened Json

  // ---------------------------------------------------------------------------
  // The test case as the generator reads it

  datatype TestCase = TestCase(id: string, title: string, steps: seq<string>)

  /**
   * `dict.get` on the three fields with the generator's defaults.  None stands
   * for the inputs the model treats as raising before the file is written: a
   * non-dict, an id that is not a string (`.lower()` fails), a title that is
   * not a string, and steps that are neither a list of strings nor a string
   * (whose characters are then the steps).  A title that is a list or dict of
   * strings, and steps given as a dict (whose keys Python iterates), do not
   * raise in Python; the model has no key order for a dict and rejects them too.
   */
  function AsTestCase(j: Json): (r: Option<TestCase>)
    ensures r.Some? ==> j.JObj?
    ensures r.Some? && !HasKey(j, "id") ==> r.value.id == "TC001"
    ensures r.Some? && !HasKey(j, "title") ==> r.value.title == "Test Case"
    ensures r.Some? && !HasKey(j, "steps") ==> r.value.steps == []
    ensures r.Some? && HasKey(j, "id") ==> j.fields["id"] == JStr(r.value.id)
    ensures r.Some? && HasKey(j, "title") ==> j.fields["title"] == JStr(r.value.title)
  {
    if !j.JObj? then None
    else
      var id := if "id" in j.fields then j.fields["id"] else JStr("TC001");
      var title := if "title" in j.fields then j.fields["title"] else JStr("Test Case");
      var steps := if "steps" in j.fields then j.fields["steps"] else JArr([]);
      match StepTexts(steps)
      case None => None
      case Some(ss) =>
        if id.JStr? && title.JStr? then Some(TestCase(id.s, title.s, ss)) else None
  }

  /** What `for step in steps` yields when every step is a string. */
  function StepTexts(steps: Json): (r: Option<seq<string>>)
    ensures steps.JStr? ==> r == Some(seq(|steps.s|, k requires 0 <= k < |steps.s| => [steps.s[k]]))
    ensures steps.JArr? ==> (r.Some? <==> forall k :: 0 <= k < |steps.items| ==> steps.items[k].JStr?)
    ensures steps.JArr? && r.Some? ==>
      |r.value| == |steps.items| && forall k :: 0 <= k < |r.value| ==> steps.items[k] == JStr(r.value[k])
    ensures !steps.JStr? && !steps.JArr? ==> r == None
  {
    match steps
    case JStr(s) => Some(seq(|s|, k requires 0 <= k < |s| => [s[k]]))
    case JArr(items) =>
      if forall k :: 0 <= k < |items| ==> items[k].JStr?
      then Some(seq(|items|, k requires 0 <= k < |items| => items[k].s))
      else None
    case _ => None
  }

  // ---------------------------------------------------------------------------
  // File name and function name

  /** Characters the safe name keeps: alphanumerics, space and underscore. */
  predicate SafeChar(c: char) {
    IsAlnum(c) || c == ' ' || c == '_'
  }

  function KeepSafe(t: string): (r: string)
    ensures forall k :: 0 <= k < |r| ==> SafeChar(r[k])
    ensures |r| <= |t|
  {
    if t == [] then [] else (if SafeChar(t[0]) then [t[0]] else []) + KeepSafe(t[1..])
  }

  /** The title reduced to a file-name fragment. */
  function SafeName(title: string): string {
    Take(Lower(ReplaceChar(KeepSafe(title), ' ', "_")), 50)
  }

  /** The safe name has at most 50 characters, each a lower-case letter, a digit or `_`. */
  lemma SafeNameShape(title: string)
    ensures |SafeName(title)| <= 50
    ensures forall k :: 0 <= k < |SafeName(title)| ==> SafeNameChar(SafeName(title)[k])
  {
    var kept := KeepSafe(title);
    var spaced := ReplaceChar(kept, ' ', "_");
    assert forall k :: 0 <= k < |spaced| ==> SafeNameChar(LowerChar(spaced[k])) by {
      forall k | 0 <= k < |spaced| ensures SafeNameChar(LowerChar(spaced[k])) {
        assert spaced[k] in spaced;
      }
    }
  }

  predicate SafeNameChar(c: char) {
    ('a' <= c <= 'z') || IsDigit(c) || c == '_'
  }

  /** Sanitising an already sanitised name changes nothing. */
  lemma SafeNameIdempotent(title: string)
    ensures SafeName(SafeName(title)) == SafeName(title)
  {
    var n := SafeName(title);
    SafeNameShape(title);
    KeepAllSafe(n);
    assert ' ' !in n by {
      forall k | 0 <= k < |n| ensures n[k] != ' ' { assert SafeNameChar(n[k]); }
    }
    ReplaceCharAbsent(n, ' ', "_");
    LowerNoUpper(n);
  }

  lemma {:induction false} KeepAllSafe(t: string)
    requires forall k :: 0 <= k < |t| ==> SafeChar(t[k])
    ensures KeepSafe(t) == t
    decreases |t|
  {
    if t != [] {
      KeepAllSafe(t[1..]);
      assert t == [t[0]] + t[1..];
    }
  }

  /** `f"{suite_name}_{test_id}_{safe_name}.py"`. */
  function FileName(suite: string, tc: TestCase): string {
    suite + "_" + tc.id + "_" + SafeName(tc.title) + ".py"
  }

  /** `str(output_dir / filename)`. */
  function ScriptPath(dir: string, suite: string, tc: TestCase): string {
    dir + "/" + FileName(suite, tc)
  }

  /** The script's file name is the suite, the id and the safe title, in that order. */
  lemma FileNameLayout(suite: string, tc: TestCase)
    ensures StartsWith(FileName(suite, tc), suite + "_" + tc.id + "_")
    ensures exists safe :: FileName(suite, tc) == suite + "_" + tc.id + "_" + safe + ".py" && |safe| <= 50
  {
    SafeNameShape(tc.title);
    var f := FileName(suite, tc);
    var p := suite + "_" + tc.id + "_";
    assert f == p + (SafeName(tc.title) + ".py");
    assert f[..|p|] == p;
  }

  /** `test_` followed by the id lower-cased with `-` turned into `_`. */
  function FunctionName(id: string): string {
    "test_" + ReplaceChar(Lower(id), '-', "_")
  }

  lemma FunctionNameShape(id: string)
    ensures StartsWith(FunctionName(id), "test_")
    ensures |FunctionName(id)| == 5 + |id|
    ensures forall k :: 5 <= k < |FunctionName(id)| ==> FunctionName(id)[k] != '-' && !('A' <= FunctionName(id)[k] <= 'Z')
  {
    var low := Lower(id);
    var r := ReplaceChar(low, '-', "_");
    var f := FunctionName(id);
    assert f == "test_" + r;
    assert f[..5] == "test_";
    forall k | 5 <= k < |f| ensures f[k] != '-' && !('A' <= f[k] <= 'Z') {
      assert f[k] == r[k - 5];
      assert r[k - 5] in r;
      if r[k - 5] in low {
        var i :| 0 <= i < |low| && low[i] == r[k - 5];
        assert low[i] == LowerChar(id[i]);
      }
    }
  }

  // ---------------------------------------------------------------------------
  // Quote escaping (`sel.replace('"', '\\"')`)

  function EscapeQuotes(s: string): string {
    ReplaceChar(s, '"', "\\\"")
  }

  /** The inverse of `EscapeQuotes`: `\"` back to `"`. */
  function UnescapeQuotes(s: string): string
    decreases |s|
  {
    if |s| >= 2 && s[0] == '\\' && s[1] == '"' then "\"" + UnescapeQuotes(s[2..])
    else if s == [] then []
    else [s[0]] + UnescapeQuotes(s[1..])
  }

  /** Every double quote of the escaped text is preceded by a backslash. */
  lemma {:induction false} EscapedQuotesArePreceded(s: string)
    ensures forall k :: 0 <= k < |EscapeQuotes(s)| && EscapeQuotes(s)[k] == '"' ==> k > 0 && EscapeQuotes(s)[k - 1] == '\\'
    decreases |s|
  {
    if s != [] {
      EscapedQuotesArePreceded(s[1..]);
      var e, t := EscapeQuotes(s), EscapeQuotes(s[1..]);
      var h := if s[0] == '"' then "\\\"" else [s[0]];
      assert e == h + t;
      EscapedNeverStartsWithQuote(s[1..]);
      forall k | 0 <= k < |e| && e[k] == '"' ensures k > 0 && e[k - 1] == '\\' {
        if k >= |h| {
          assert e[k] == t[k - |h|];
          assert k - |h| > 0;
          assert e[k - 1] == t[k - |h| - 1];
        }
      }
    }
  }

  lemma EscapedNeverStartsWithQuote(s: string)
    ensures EscapeQuotes(s) == [] || EscapeQuotes(s)[0] != '"'
  {
  }

  /** Escaping loses nothing: unescaping gives the text back. */
  lemma {:induction false} UnescapeEscape(s: string)
    ensures UnescapeQuotes(EscapeQuotes(s)) == s
    decreases |s|
  {
    if s != [] {
      UnescapeEscape(s[1..]);
      var t := EscapeQuotes(s[1..]);
      EscapedNeverStartsWithQuote(s[1..]);
      if s[0] == '"' {
        assert EscapeQuotes(s) == "\\\"" + t;
        assert (EscapeQuotes(s))[2..] == t;
      } else {
        assert EscapeQuotes(s) == [s[0]] + t;
        assert (EscapeQuotes(s))[1..] == t;
      }
      assert s == [s[0]] + s[1..];
    }
  }

  // ---------------------------------------------------------------------------
  // The selector regex (line 188), hand-coded
  //
  //   (?:Selector|CSS selector)(?:s)?: (.*?)(?:$|\.|,|\))   with re.IGNORECASE
  //
  // Case is ignored for ASCII letters.  The alternatives are tried in order,
  // the optional `s` first with and then without it, and the lazy group grows
  // one character at a time (never over `\n`) until one of the four endings
  // matches: end of text, a final `\n`, `.`, `,` or `)`.

  /** The characters the lazy capture can never hold. */
  predicate Stopper(c: char) {
    c == ',' || c == '.' || c == ')' || c == '\n'
  }

  predicate NoStopper(s: string, g: nat, e: nat)
    requires g <= e <= |s|
  {
    forall k :: g <= k < e ==> !Stopper(s[k])
  }

  /** Lower-cased `s` has `kw` at offset p. */
  predicate KeywordAt(s: string, p: nat, kw: string) {
    p + |kw| <= |s| && Lower(s[p..p + |kw|]) == kw
  }

  /** One of the endings `$`, `\.`, `,`, `\)` matches at q. */
  predicate EndAt(s: string, q: nat)
    requires q <= |s|
  {
    q == |s| || (q == |s| - 1 && s[q] == '\n') || s[q] == '.' || s[q] == ',' || s[q] == ')'
  }

  /** Where the lazy group `(.*?)` starting at g ends, if it can end at all. */
  function LazyEnd(s: string, g: nat): (r: Option<nat>)
    requires g <= |s|
    ensures r.Some? ==> g <= r.value <= |s| && EndAt(s, r.value)
    ensures r.Some? ==> forall k :: g <= k < r.value ==> !EndAt(s, k) && s[k] != '\n'
    ensures r.None? ==> exists k :: g <= k < |s| && s[k] == '\n' && !EndAt(s, k)
    decreases |s| - g
  {
    if EndAt(s, g) then Some(g)
    else if s[g] == '\n' then None
    else LazyEnd(s, g + 1)
  }

  /** The regex with keyword alternative `kw` and the `s` taken or not, at offset p: the group's bounds. */
  function TryAt(s: string, p: nat, kw: string, plural: bool): (r: Option<(nat, nat)>)
    ensures r.Some? ==> p + |kw| <= r.value.0 <= r.value.1 <= |s| && NoStopper(s, r.value.0, r.value.1)
  {
    var q := p + |kw| + (if plural then 1 else 0);
    if KeywordAt(s, p, kw) && (plural ==> p + |kw| < |s| && LowerChar(s[p + |kw|]) == 's')
       && q + 2 <= |s| && s[q..q + 2] == ": "
    then
      match LazyEnd(s, q + 2)
      case Some(e) => Some((q + 2, e))
      case None => None
    else None
  }

  /** The first way the pattern matches at offset p, in the regex's backtracking order. */
  function MatchAt(s: string, p: nat): (r: Option<(nat, nat)>)
    ensures r.Some? ==> p < r.value.0 <= r.value.1 <= |s| && NoStopper(s, r.value.0, r.value.1)
  {
    var a := TryAt(s, p, "selector", true);
    if a.Some? then a else
    var b := TryAt(s, p, "selector", false);
    if b.Some? then b else
    var c := TryAt(s, p, "css selector", true);
    if c.Some? then c else
    TryAt(s, p, "css selector", false)
  }

  /** `re.search`: the leftmost offset at or after p where the pattern matches. */
  function SelectorSearch(s: string, p: nat): (r: Option<(nat, nat, nat)>)
    ensures r.Some? ==> p <= r.value.0 && MatchAt(s, r.value.0) == Some((r.value.1, r.value.2))
    ensures r.Some? ==> forall q: nat :: p <= q < r.value.0 ==> MatchAt(s, q).None?
    ensures r.None? ==> forall q: nat :: p <= q ==> MatchAt(s, q).None?
    decreases |s| - p
  {
    if p >= |s| then None
    else match MatchAt(s, p)
      case Some(m) => Some((p, m.0, m.1))
      case None => SelectorSearch(s, p + 1)
  }

  /** `s.strip().rstrip(")")`. */
  function CleanSelector(x: string): string {
    RStripChar(Strip(x), ')')
  }

  /** `extracted_selectors` for one step. */
  function ExtractSelectors(step: string): seq<string> {
    match SelectorSearch(step, 0)
    case None => []
    case Some(m) => CleanAll(Split(step[m.1..m.2], ','))
  }

  /** `CleanSelector` on every part. */
  function CleanAll(parts: seq<string>): (r: seq<string>)
    ensures |r| == |parts| && forall k :: 0 <= k < |r| ==> r[k] == CleanSelector(parts[k])
  {
    if parts == [] then [] else [CleanSelector(parts[0])] + CleanAll(parts[1..])
  }


  /** Text free of the stoppers. */
  predicate StopperFree(x: string) {
    forall i :: 0 <= i < |x| ==> !Stopper(x[i])
  }

  lemma CleanSelectorFree(x: string)
    requires StopperFree(x)
    ensures StopperFree(CleanSelector(x))
  {
    var l := TrimLeft(x);
    var r := TrimRight(l);
    var z := RStripChar(r, ')');
    TrimLeftSuffix(x);
    TrimRightPrefix(l);
    assert l == x[|x| - |l|..];
    assert r == l[..|r|];
    assert z == r[..|z|];
    forall i | 0 <= i < |z| ensures !Stopper(z[i]) {
      assert z[i] == x[|x| - |l| + i];
    }
  }

  lemma GroupFree(s: string, g: nat, e: nat)
    requires g <= e <= |s| && NoStopper(s, g, e)
    ensures StopperFree(s[g..e])
  {
    forall i | 0 <= i < e - g ensures !Stopper(s[g..e][i]) {
      assert s[g..e][i] == s[g + i];
    }
  }

  /**
   * At most one selector is extracted, exactly when the regex matches, and it
   * holds none of `,` `.` `)` (nor a line break).
   */
  lemma ExtractSelectorsShape(step: string)
    ensures |ExtractSelectors(step)| == if SelectorSearch(step, 0).Some? then 1 else 0
    ensures forall k :: 0 <= k < |ExtractSelectors(step)| ==> StopperFree(ExtractSelectors(step)[k])
  {
    var m := SelectorSearch(step, 0);
    if m.Some? {
      var g := step[m.value.1..m.value.2];
      GroupFree(step, m.value.1, m.value.2);
      assert ',' !in g by {
        forall i | 0 <= i < |g| ensures g[i] != ',' { assert !Stopper(g[i]); }
      }
      SplitNone(g, ',');
      assert ExtractSelectors(step) == [CleanSelector(g)];
      CleanSelectorFree(g);
    }
  }

  /** A selector written with a leading `.` is extracted as the empty string (line 188). */
  lemma DotSelectorIsEmpty()
    ensures ExtractSelectors(CartStep) == [""]
  {
    DotSelectorMatch();
    assert SelectorSearch(CartStep, 0) == Some((0, 14, 14));
    assert CartStep[14..14] == "";
    SplitNone("", ',');
  }

  const CartStep := "CSS selector: .shopping_cart_link"

  lemma DotSelectorMatch()
    ensures MatchAt(CartStep, 0) == Some((14, 14))
  {
    CartKeywords();
    CartLazyEnd();
    var s := CartStep;
    assert TryAt(s, 0, "selector", true) == None;
    assert TryAt(s, 0, "selector", false) == None;
    assert TryAt(s, 0, "css selector", true) == None;
    assert TryAt(s, 0, "css selector", false) == Some((14, 14));
  }

  lemma CartKeywords()
    ensures !KeywordAt(CartStep, 0, "selector")
    ensures KeywordAt(CartStep, 0, "css selector")
    ensures LowerChar(CartStep[12]) != 's' && CartStep[12..14] == ": "
  {
    CartNotSelector();
    CartCssSelector();
  }

  lemma CartNotSelector()
    ensures !KeywordAt(CartStep, 0, "selector")
  {
    var x := CartStep[0..8];
    assert x[0] == 'C';
    assert Lower(x)[0] == 'c';
  }

  lemma CartCssSelector()
    ensures KeywordAt(CartStep, 0, "css selector")
  {
    var x := CartStep[0..12];
    var l := Lower(x);
    assert x == "CSS selector";
    assert l == "css selector" by {
      assert x[0] == 'C' && x[1] == 'S' && x[2] == 'S';
      assert l[0] == 'c' && l[1] == 's' && l[2] == 's' && l[3] == ' ';
      assert l[4] == 's' && l[5] == 'e' && l[6] == 'l' && l[7] == 'e';
      assert l[8] == 'c' && l[9] == 't' && l[10] == 'o' && l[11] == 'r';
    }
  }

  lemma CartLazyEnd()
    ensures LazyEnd(CartStep, 14) == Some(14)
  {
    assert EndAt(CartStep, 14);
  }

  // ---------------------------------------------------------------------------
  // Emitted actions

  /**
   * One statement the per-step logic emits: a `print`, a locator fill, a
   * click (visible-first, then by selector with a timeout, then a wait for the
   * network to settle), the catch-all URL expectation, or a fixed wait.
   * Selectors are held as they appear inside the emitted string literal.
   */
  datatype Action =
    | Echo(text: string)
    | Fill(selector: string, value: string)
    | Click(selector: string)
    | ExpectAnyUrl
    | Wait(ms: nat)

  const FillKeywords: seq<string> := ["input", "fill", "enter"]
  const ClickKeywords: seq<string> := ["click", "add", "navigate"]
  const VerifyKeywords: seq<string> := ["verify", "assert"]
  /** The eight keywords of the wait test, in the order the source lists them. */
  const ActionKeywords: seq<string> := ["input", "fill", "enter", "click", "add", "navigate", "verify", "assert"]

  /** The wait test's keyword list is the three branch lists together. */
  lemma ActionKeywordsSplit(text: string)
    ensures AnyIn(text, ActionKeywords) <==>
      AnyIn(text, FillKeywords) || AnyIn(text, ClickKeywords) || AnyIn(text, VerifyKeywords)
  {
    assert ActionKeywords == FillKeywords + ClickKeywords + VerifyKeywords;
    if AnyIn(text, ActionKeywords) {
      var k :| 0 <= k < 8 && Contains(text, ActionKeywords[k]);
      if k < 3 { assert ActionKeywords[k] == FillKeywords[k]; }
      else if k < 6 { assert ActionKeywords[k] == ClickKeywords[k - 3]; }
      else { assert ActionKeywords[k] == VerifyKeywords[k - 6]; }
    }
    if AnyIn(text, FillKeywords) {
      var k :| 0 <= k < 3 && Contains(text, FillKeywords[k]);
      assert ActionKeywords[k] == FillKeywords[k];
    }
    if AnyIn(text, ClickKeywords) {
      var k :| 0 <= k < 3 && Contains(text, ClickKeywords[k]);
      assert ActionKeywords[k + 3] == ClickKeywords[k];
    }
    if AnyIn(text, VerifyKeywords) {
      var k :| 0 <= k < 2 && Contains(text, VerifyKeywords[k]);
      assert ActionKeywords[k + 6] == VerifyKeywords[k];
    }
  }

  /** `f"Step {i}: {step}"`. */
  function StepLine(i: nat, step: string): string {
    "Step " + NatStr(i) + ": " + step
  }

  // ---------------------------------------------------------------------------
  // Fill branch

  /** An entry of `field_map`: keyword, value typed, default selector. */
  datatype Field = Field(keyword: string, value: string, defaultSelector: string)

  const FieldMap: seq<Field> := [
    Field("first name", "Test", "#first-name, input[name=\"firstName\"]"),
    Field("last name", "User", "#last-name, input[name=\"lastName\"]"),
    Field("zip", "12345", "#postal-code, input[name=\"postalCode\"]"),
    Field("postal", "12345", "#postal-code, input[name=\"postalCode\"]")
  ]

  /** `keyword.split()[0]`; the keywords have single inner spaces and none at the ends. */
  function FirstWord(kw: string): string {
    Split(kw, ' ')[0]
  }

  /** `next((s for s in extracted if word in s), default)`. */
  function FillSelector(extracted: seq<string>, word: string, default: string): (r: string)
    ensures r == default || exists k :: 0 <= k < |extracted| && r == extracted[k] && Contains(r, word)
    ensures forall k :: 0 <= k < |extracted| && Contains(extracted[k], word) ==> r != default || exists j :: 0 <= j <= k && r == extracted[j]
    ensures (forall k :: 0 <= k < |extracted| ==> !Contains(extracted[k], word)) ==> r == default
    ensures |extracted| > 0 && Contains(extracted[0], word) ==> r == extracted[0]
  {
    if extracted == [] then default
    else if Contains(extracted[0], word) then extracted[0]
    else FillSelector(extracted[1..], word, default)
  }

  /** The fill one field contributes to the step (none when its keyword is absent). */
  function FieldFill(lower: string, extracted: seq<string>, f: Field): seq<Action> {
    if Contains(lower, f.keyword)
    then [Fill(EscapeQuotes(FillSelector(extracted, FirstWord(f.keyword), f.defaultSelector)), f.value)]
    else []
  }

  /** The fills of the fields `fs`, in order. */
  function FillActions(lower: string, extracted: seq<string>, fs: seq<Field>): seq<Action>
    decreases |fs|
  {
    if fs == [] then []
    else FillActions(lower, extracted, fs[..|fs| - 1]) + FieldFill(lower, extracted, fs[|fs| - 1])
  }

  /** The fields whose keyword the step mentions, in map order. */
  function PresentFields(lower: string, fs: seq<Field>): seq<Field>
    decreases |fs|
  {
    if fs == [] then []
    else PresentFields(lower, fs[..|fs| - 1]) + (if Contains(lower, fs[|fs| - 1].keyword) then [fs[|fs| - 1]] else [])
  }

  /** One fill per mentioned field, in map order, with that field's value. */
  lemma {:induction false} FillsFollowPresentFields(lower: string, extracted: seq<string>, fs: seq<Field>)
    ensures |FillActions(lower, extracted, fs)| == |PresentFields(lower, fs)|
    ensures forall k :: 0 <= k < |PresentFields(lower, fs)| ==>
      var f := PresentFields(lower, fs)[k];
      FillActions(lower, extracted, fs)[k] == Fill(EscapeQuotes(FillSelector(extracted, FirstWord(f.keyword), f.defaultSelector)), f.value)
    decreases |fs|
  {
    if fs != [] {
      FillsFollowPresentFields(lower, extracted, fs[..|fs| - 1]);
    }
  }

  /** Every field of `PresentFields` is one of `fs` whose keyword occurs, and each such field is there. */
  lemma {:induction false} PresentFieldsMembers(lower: string, fs: seq<Field>)
    ensures forall f :: f in PresentFields(lower, fs) <==> f in fs && Contains(lower, f.keyword)
    decreases |fs|
  {
    if fs != [] {
      PresentFieldsMembers(lower, fs[..|fs| - 1]);
      assert fs == fs[..|fs| - 1] + [fs[|fs| - 1]];
    }
  }

  // ---------------------------------------------------------------------------
  // Click branch

  datatype Heuristic = Heuristic(keyword: string, selector: string)

  const Heuristics: seq<Heuristic> := [
    Heuristic("add to cart", "button:has-text(\"Add to cart\")"),
    Heuristic("cart", ".shopping_cart_link, #shopping_cart_container a"),
    Heuristic("checkout", "#checkout, button:has-text(\"Checkout\")"),
    Heuristic("continue", "#continue, input[type=\"submit\"]"),
    Heuristic("finish", "#finish, button[name=\"finish\"]")
  ]

  /** The selector of the first heuristic at or after index i whose keyword occurs. */
  function FirstHeuristicFrom(lower: string, hs: seq<Heuristic>, i: nat): (r: Option<string>)
    requires i <= |hs|
    ensures r.Some? ==> exists k :: (i <= k < |hs| && Contains(lower, hs[k].keyword) && r.value == hs[k].selector &&
                                     forall j :: i <= j < k ==> !Contains(lower, hs[j].keyword))
    ensures r.None? <==> forall k :: i <= k < |hs| ==> !Contains(lower, hs[k].keyword)
    decreases |hs| - i
  {
    if i == |hs| then None
    else if Contains(lower, hs[i].keyword) then Some(hs[i].selector)
    else FirstHeuristicFrom(lower, hs, i + 1)
  }

  function FirstHeuristic(lower: string): Option<string> {
    FirstHeuristicFrom(lower, Heuristics, 0)
  }

  /** The heuristics loop with its `break`; "" when no keyword occurs. */
  method ChooseHeuristic(lower: string) returns (sel: string)
    ensures FirstHeuristic(lower).Some? ==> sel == FirstHeuristic(lower).value
    ensures FirstHeuristic(lower).None? ==> sel == ""
  {
    sel := "";
    var i := 0;
    while i < |Heuristics|
      invariant 0 <= i <= |Heuristics|
      invariant FirstHeuristicFrom(lower, Heuristics, i) == FirstHeuristic(lower)
      decreases |Heuristics| - i
    {
      if Contains(lower, Heuristics[i].keyword) {
        sel := Heuristics[i].selector;
        break;
      }
      i := i + 1;
    }
  }

  /** The button text: inside the first pair of single quotes, else of double quotes, else "Submit". */
  function ButtonName(step: string): string {
    if '\'' in step then
      SplitHasTwo(step, '\'');
      Split(step, '\'')[1]
    else if '"' in step then
      SplitHasTwo(step, '"');
      Split(step, '"')[1]
    else "Submit"
  }

  /** `step` is `a`, the quote, `name`, then `rest`, with `a` and `name` free of the quote and `rest` empty or opening with it. */
  predicate QuotedAs(step: string, q: char, name: string, a: string, rest: string) {
    step == a + [q] + name + rest && q !in a && q !in name && (rest == [] || rest[0] == q)
  }

  /** `name` is the text between the first quote `q` of `step` and the next one (or the end). */
  ghost predicate QuotedBy(step: string, q: char, name: string) {
    exists a, rest :: QuotedAs(step, q, name, a, rest)
  }

  /**
   * The button text is what the first quote opens and the next one of the same
   * kind closes; single quotes win over double quotes.
   */
  lemma ButtonNameSpec(step: string)
    ensures '\'' in step ==> QuotedBy(step, '\'', ButtonName(step))
    ensures '\'' !in step && '"' in step ==> QuotedBy(step, '"', ButtonName(step))
    ensures '\'' !in step && '"' !in step ==> ButtonName(step) == "Submit"
  {
    if '\'' in step {
      var a, rest := SplitSecond(step, '\'');
      assert ButtonName(step) == Split(step, '\'')[1];
      assert QuotedAs(step, '\'', ButtonName(step), a, rest);
    } else if '"' in step {
      var a, rest := SplitSecond(step, '"');
      assert ButtonName(step) == Split(step, '"')[1];
      assert QuotedAs(step, '"', ButtonName(step), a, rest);
    }
  }

  /** The click selector before escaping. */
  function ClickSelector(lower: string, step: string, extracted: seq<string>): string {
    if |extracted| > 0 then extracted[|extracted| - 1]
    else match FirstHeuristic(lower)
      case Some(h) => h
      case None => "button:has-text(\"" + ButtonName(step) + "\"), text=" + ButtonName(step)
  }

  /**
   * The click branch's statements for the chosen selector. The selector is
   * escaped inside the emitted literals, so the `print` shows it as chosen
   * and the click receives the escaped text.
   */
  function ClickActions(sel: string): seq<Action> {
    [Echo(ClickLine(sel)), Click(EscapeQuotes(sel))]
  }

  /** The click selector as the source computes it, with the emptiness test after the heuristics. */
  method ChooseClickSelector(lower: string, step: string, extracted: seq<string>) returns (sel: string)
    ensures sel == ClickSelector(lower, step, extracted)
  {
    sel := "";
    if |extracted| > 0 {
      sel := extracted[|extracted| - 1];
    } else {
      sel := ChooseHeuristic(lower);
      if sel == "" {
        var name := ButtonName(step);
        sel := "button:has-text(\"" + name + "\"), text=" + name;
      }
    }
  }

  // ---------------------------------------------------------------------------
  // One step

  /** The fill branch: the step echoed, then one fill per mentioned field. */
  function FillSegment(i: nat, step: string, lower: string, extracted: seq<string>): seq<Action> {
    if AnyIn(lower, FillKeywords) then [Echo(StepLine(i, step))] + FillActions(lower, extracted, FieldMap) else []
  }

  /** The click branch. */
  function ClickSegment(step: string, lower: string, extracted: seq<string>): seq<Action> {
    if AnyIn(lower, ClickKeywords) then ClickActions(ClickSelector(lower, step, extracted)) else []
  }

  /** The verify branch: the step echoed, then an expectation any URL meets. */
  function VerifySegment(i: nat, step: string, lower: string): seq<Action> {
    if AnyIn(lower, VerifyKeywords) then [Echo(StepLine(i, step)), ExpectAnyUrl] else []
  }

  /** The fallback: the step echoed, then a one-second wait. */
  function WaitSegment(i: nat, step: string, lower: string): seq<Action> {
    if !AnyIn(lower, ActionKeywords) then [Echo(StepLine(i, step)), Wait(1000)] else []
  }

  /** The statements emitted for step number i (counted from 1). */
  function StepActions(i: nat, step: string): seq<Action> {
    var lower := Lower(step);
    var extracted := ExtractSelectors(step);
    FillSegment(i, step, lower, extracted) + ClickSegment(step, lower, extracted)
    + VerifySegment(i, step, lower) + WaitSegment(i, step, lower)
  }

  predicate HasClick(acts: seq<Action>) {
    exists a :: a in acts && a.Click?
  }

  predicate HasFill(acts: seq<Action>) {
    exists a :: a in acts && a.Fill?
  }

  lemma FillActionsAreFills(lower: string, extracted: seq<string>, fs: seq<Field>)
    ensures forall a :: a in FillActions(lower, extracted, fs) ==> a.Fill?
  {
    FillsFollowPresentFields(lower, extracted, fs);
  }

  /**
   * Which branches fire: every step emits something; the wait fires exactly
   * when no keyword occurs; a click, an URL expectation and fills each come
   * only from their own branch.
   */
  lemma StepBranches(i: nat, step: string)
    ensures |StepActions(i, step)| >= 1
    ensures Wait(1000) in StepActions(i, step) <==> !AnyIn(Lower(step), ActionKeywords)
    ensures HasClick(StepActions(i, step)) <==> AnyIn(Lower(step), ClickKeywords)
    ensures ExpectAnyUrl in StepActions(i, step) <==> AnyIn(Lower(step), VerifyKeywords)
    ensures HasFill(StepActions(i, step)) ==> AnyIn(Lower(step), FillKeywords)
  {
    StepSegments(i, step);
    StepNonEmpty(i, step);
    StepWait(i, step);
    StepClick(i, step);
    StepExpect(i, step);
    StepFill(i, step);
  }

  lemma StepSegments(i: nat, step: string)
    ensures var lower, extracted := Lower(step), ExtractSelectors(step);
      StepActions(i, step) == FillSegment(i, step, lower, extracted) + ClickSegment(step, lower, extracted)
                              + VerifySegment(i, step, lower) + WaitSegment(i, step, lower)
  {
  }

  lemma InFour<T>(x: T, f: seq<T>, c: seq<T>, v: seq<T>, w: seq<T>)
    ensures x in f + c + v + w <==> x in f || x in c || x in v || x in w
  {
  }

  lemma StepNonEmpty(i: nat, step: string)
    ensures |StepActions(i, step)| >= 1
  {
    var lower, extracted := Lower(step), ExtractSelectors(step);
    StepSegments(i, step);
    SegmentsLength(i, step, lower, extracted);
  }

  lemma SegmentsLength(i: nat, step: string, lower: string, extracted: seq<string>)
    ensures |FillSegment(i, step, lower, extracted)| + |ClickSegment(step, lower, extracted)|
            + |VerifySegment(i, step, lower)| + |WaitSegment(i, step, lower)| >= 1
  {
    ActionKeywordsSplit(lower);
    if AnyIn(lower, FillKeywords) {
      assert |FillSegment(i, step, lower, extracted)| >= 1;
    }
  }

  lemma SegmentsWithoutWait(i: nat, step: string, lower: string, extracted: seq<string>)
    ensures Wait(1000) !in FillSegment(i, step, lower, extracted)
    ensures Wait(1000) !in ClickSegment(step, lower, extracted)
    ensures Wait(1000) !in VerifySegment(i, step, lower)
  {
    FillActionsAreFills(lower, extracted, FieldMap);
  }

  lemma StepWait(i: nat, step: string)
    ensures Wait(1000) in StepActions(i, step) <==> !AnyIn(Lower(step), ActionKeywords)
  {
    var lower, extracted := Lower(step), ExtractSelectors(step);
    StepSegments(i, step);
    SegmentsWithoutWait(i, step, lower, extracted);
    InFour(Wait(1000), FillSegment(i, step, lower, extracted), ClickSegment(step, lower, extracted),
           VerifySegment(i, step, lower), WaitSegment(i, step, lower));
  }

  lemma SegmentsWithoutClick(i: nat, step: string, lower: string, extracted: seq<string>)
    ensures !HasClick(FillSegment(i, step, lower, extracted))
    ensures !HasClick(VerifySegment(i, step, lower))
    ensures !HasClick(WaitSegment(i, step, lower))
    ensures HasClick(ClickSegment(step, lower, extracted)) <==> AnyIn(lower, ClickKeywords)
  {
    FillActionsAreFills(lower, extracted, FieldMap);
    if AnyIn(lower, ClickKeywords) {
      assert ClickSegment(step, lower, extracted)[1].Click?;
    }
  }

  lemma HasClickFour(f: seq<Action>, c: seq<Action>, v: seq<Action>, w: seq<Action>)
    ensures HasClick(f + c + v + w) <==> HasClick(f) || HasClick(c) || HasClick(v) || HasClick(w)
  {
    if HasClick(f + c + v + w) {
      var a :| a in f + c + v + w && a.Click?;
      InFour(a, f, c, v, w);
    }
  }

  lemma StepClick(i: nat, step: string)
    ensures HasClick(StepActions(i, step)) <==> AnyIn(Lower(step), ClickKeywords)
  {
    var lower, extracted := Lower(step), ExtractSelectors(step);
    StepSegments(i, step);
    SegmentsWithoutClick(i, step, lower, extracted);
    HasClickFour(FillSegment(i, step, lower, extracted), ClickSegment(step, lower, extracted),
                 VerifySegment(i, step, lower), WaitSegment(i, step, lower));
  }

  lemma StepExpect(i: nat, step: string)
    ensures ExpectAnyUrl in StepActions(i, step) <==> AnyIn(Lower(step), VerifyKeywords)
  {
    var lower, extracted := Lower(step), ExtractSelectors(step);
    StepSegments(i, step);
    FillActionsAreFills(lower, extracted, FieldMap);
    assert ExpectAnyUrl !in FillSegment(i, step, lower, extracted);
    assert ExpectAnyUrl !in ClickSegment(step, lower, extracted);
    assert ExpectAnyUrl !in WaitSegment(i, step, lower);
  }

  lemma StepFill(i: nat, step: string)
    ensures HasFill(StepActions(i, step)) ==> AnyIn(Lower(step), FillKeywords)
  {
    var lower, extracted := Lower(step), ExtractSelectors(step);
    StepSegments(i, step);
    var f, c, v, w := FillSegment(i, step, lower, extracted), ClickSegment(step, lower, extracted),
                      VerifySegment(i, step, lower), WaitSegment(i, step, lower);
    assert !HasFill(c) && !HasFill(v) && !HasFill(w);
  }

  /** The click uses the last extracted selector when there is one, even an empty one. */
  lemma ClickPrefersExtracted(i: nat, step: string)
    requires AnyIn(Lower(step), ClickKeywords) && ExtractSelectors(step) != []
    ensures Click(EscapeQuotes(ExtractSelectors(step)[|ExtractSelectors(step)| - 1])) in StepActions(i, step)
  {
    var lower := Lower(step);
    var c := ClickSegment(step, lower, ExtractSelectors(step));
    assert c[1] in StepActions(i, step);
  }

  /** Without an extracted selector the click uses the first heuristic whose keyword occurs. */
  lemma ClickFallsBackToHeuristic(i: nat, step: string)
    requires AnyIn(Lower(step), ClickKeywords) && ExtractSelectors(step) == []
    ensures FirstHeuristic(Lower(step)).Some? ==> Click(EscapeQuotes(FirstHeuristic(Lower(step)).value)) in StepActions(i, step)
    ensures FirstHeuristic(Lower(step)).None? ==>
      Click(EscapeQuotes("button:has-text(\"" + ButtonName(step) + "\"), text=" + ButtonName(step))) in StepActions(i, step)
  {
    var lower := Lower(step);
    var c := ClickSegment(step, lower, []);
    assert c[1] in StepActions(i, step);
  }

  /** The statements of one step, built as the source builds them: each branch appends its part. */
  method EmitStep(i: nat, step: string) returns (out: seq<Action>)
    ensures out == StepActions(i, step)
  {
    var lower := Lower(step);
    var extracted := ExtractSelectors(step);
    var fillPart: seq<Action> := [];
    if AnyIn(lower, FillKeywords) {
      var fills := EmitFills(lower, extracted);
      fillPart := [Echo(StepLine(i, step))] + fills;
    }
    assert fillPart == FillSegment(i, step, lower, extracted);
    var clickPart: seq<Action> := [];
    if AnyIn(lower, ClickKeywords) {
      var sel := ChooseClickSelector(lower, step, extracted);
      clickPart := ClickActions(sel);
    }
    assert clickPart == ClickSegment(step, lower, extracted);
    var verifyPart: seq<Action> := [];
    if AnyIn(lower, VerifyKeywords) {
      verifyPart := [Echo(StepLine(i, step)), ExpectAnyUrl];
    }
    assert verifyPart == VerifySegment(i, step, lower);
    var waitPart: seq<Action> := [];
    if !AnyIn(lower, ActionKeywords) {
      waitPart := [Echo(StepLine(i, step)), Wait(1000)];
    }
    assert waitPart == WaitSegment(i, step, lower);
    out := fillPart + clickPart + verifyPart + waitPart;
  }

  /** The `field_map` loop. */
  method EmitFills(lower: string, extracted: seq<string>) returns (out: seq<Action>)
    ensures out == FillActions(lower, extracted, FieldMap)
  {
    out := [];
    var i := 0;
    while i < |FieldMap|
      invariant 0 <= i <= |FieldMap|
      invariant out == FillActions(lower, extracted, FieldMap[..i])
      decreases |FieldMap| - i
    {
      assert FieldMap[..i + 1][..i] == FieldMap[..i];
      out := out + FieldFill(lower, extracted, FieldMap[i]);
      i := i + 1;
    }
    assert FieldMap[..i] == FieldMap;
  }

  /** A step naming both a click and a verification emits both: the branches are independent. */
  lemma BranchesOverlap(i: nat, step: string)
    requires Contains(Lower(step), "click") && Contains(Lower(step), "verify")
    ensures HasClick(StepActions(i, step)) && ExpectAnyUrl in StepActions(i, step)
  {
    assert ClickKeywords[0] == "click";
    assert VerifyKeywords[0] == "verify";
    StepClick(i, step);
    StepExpect(i, step);
  }

  // ---------------------------------------------------------------------------
  // The whole script

  /** The credentials dict the caller passes; a value may be None. */
  type Credentials = map<string, Option<string>>

  /** `f"{credentials.get(k, '')}"`: absent is "", None prints as "None". */
  function CredText(creds: Credentials, k: string): string {
    if k !in creds then ""
    else match creds[k]
      case None => "None"
      case Some(v) => v
  }

  /** `f"    {i}. {step}\\n"`: the backslash and `n` are two literal characters. */
  function DocLine(i: nat, step: string): string {
    "    " + NatStr(i) + ". " + step + "\\n"
  }

  /** The numbered step list of the docstring. */
  function DocLines(steps: seq<string>): (r: seq<string>)
    ensures |r| == |steps|
    decreases |steps|
  {
    if steps == [] then [] else DocLines(steps[..|steps| - 1]) + [DocLine(|steps|, steps[|steps| - 1])]
  }

  /** The per-step statements of all steps, numbered from 1. */
  function StepsActions(steps: seq<string>): seq<Action>
    decreases |steps|
  {
    if steps == [] then [] else StepsActions(steps[..|steps| - 1]) + StepActions(|steps|, steps[|steps| - 1])
  }

  /**
   * A generated script: header fields, the docstring's step list, where
   * credentials come from at run time, and the per-step statements.  The
   * password is read from `APP_PASSWORD` when the script runs and is not part
   * of the script.
   */
  datatype Script = Script(
    testId: string,
    title: string,
    suite: string,
    generatedAt: string,
    functionName: string,
    docLines: seq<string>,
    metadataFile: string,
    fallbackUrl: string,
    fallbackUsername: string,
    actions: seq<Action>)

  function MetadataName(suite: string): string {
    suite + "_metadata.json"
  }

  /** `_create_script_content` for a test case, with `now` as the generation timestamp. */
  function ScriptFor(tc: TestCase, suite: string, creds: Credentials, now: string): Script {
    Script(tc.id, tc.title, suite, now, FunctionName(tc.id), DocLines(tc.steps), MetadataName(suite),
           CredText(creds, "url"), CredText(creds, "username"), StepsActions(tc.steps))
  }

  /** Line k of the docstring lists step k + 1 under its number. */
  lemma {:induction false} DocLinesNumbered(steps: seq<string>)
    ensures forall k :: 0 <= k < |steps| ==> DocLines(steps)[k] == DocLine(k + 1, steps[k])
    decreases |steps|
  {
    if steps != [] {
      var init := steps[..|steps| - 1];
      DocLinesNumbered(init);
      assert forall k :: 0 <= k < |init| ==> init[k] == steps[k];
    }
  }

  /** The number written on a docstring line reads back as its position plus one. */
  lemma DocLineNumberReadsBack(steps: seq<string>, k: nat)
    requires k < |steps|
    ensures exists num :: DocLines(steps)[k] == "    " + num + ". " + steps[k] + "\\n" && AllDigits(num) && DigitsValue(num) == k + 1
  {
    DocLinesNumbered(steps);
    NatStrValue(k + 1);
    assert AllDigits(NatStr(k + 1));
  }

  /** No part of the script depends on the password. */
  lemma ScriptIgnoresPassword(tc: TestCase, suite: string, creds: Credentials, now: string, p1: Option<string>, p2: Option<string>)
    ensures ScriptFor(tc, suite, creds["password" := p1], now) == ScriptFor(tc, suite, creds["password" := p2], now)
  {
    assert CredText(creds["password" := p1], "url") == CredText(creds["password" := p2], "url");
    assert CredText(creds["password" := p1], "username") == CredText(creds["password" := p2], "username");
  }

  // ---------------------------------------------------------------------------
  // Running a generated script

  /** How the `try` block of a generated script ends. */
  datatype RunEnd = AllStepsDone | RaisedAt(step: nat, exc: string)

  /** What the `try` block returns. */
  function ScriptResult(end: RunEnd): string {
    if end.AllStepsDone? then "PASS" else "FAIL"
  }

  /** The last line the `__main__` block prints. */
  function FinalLine(result: string): string {
    "Final Result: " + result
  }

  /**
   * How the process running a generated script ends: its `__main__` block
   * completes after the `try` block ended as `end`, or an exception escapes
   * (the browser launch before the `try`, an unreadable metadata file, a
   * failing screenshot or `browser.close()`, a script that does not compile).
   */
  datatype ScriptProcess = MainCompleted(end: RunEnd) | Uncaught(exc: string)

  /** The interpreter's exit status: 0 once `__main__` completes, 1 after an uncaught exception. */
  function ExitCode(p: ScriptProcess): (code: int)
    ensures code == 0 <==> p.MainCompleted?
    ensures code == 0 || code == 1
  {
    if p.MainCompleted? then 0 else 1
  }

  /** The texts printed by the statements `actions[..n]`. */
  function Echoes(actions: seq<Action>): seq<string>
    decreases |actions|
  {
    if actions == [] then []
    else Echoes(actions[..|actions| - 1]) + (if actions[|actions| - 1].Echo? then [actions[|actions| - 1].text] else [])
  }

  /** The lines a generated script prints, `print` by `print`, for a given end of its `try` block. */
  function ScriptOutput(sc: Script, end: RunEnd): (out: seq<string>)
    ensures |out| >= 3 && out[|out| - 1] == FinalLine(ScriptResult(end))
    ensures out[0] == "Starting test: " + sc.title
    ensures end.AllStepsDone? ==> out[|out| - 2] == "Test PASSED \U{2713}"
    ensures end.RaisedAt? ==> out[|out| - 2] == "Test FAILED \U{2717}: " + end.exc
  {
    var done := if end.AllStepsDone? then sc.actions
                else sc.actions[..if end.step <= |sc.actions| then end.step else |sc.actions|];
    var verdict := if end.AllStepsDone? then "Test PASSED \U{2713}" else "Test FAILED \U{2717}: " + end.exc;
    ["Starting test: " + sc.title] + Echoes(done) + [verdict, FinalLine(ScriptResult(end))]
  }

  /** The script returns "PASS" exactly when every statement ran, and says so on its last line. */
  lemma PassSentinel(sc: Script, end: RunEnd)
    ensures ScriptResult(end) == "PASS" <==> end.AllStepsDone?
    ensures end.AllStepsDone? ==> Contains(Last(ScriptOutput(sc, end)), "PASS")
  {
    if end.AllStepsDone? {
      assert FinalLine("PASS") == "Final Result: " + "PASS";
      ContainsInfix("Final Result: ", "PASS", "");
      assert "Final Result: " + "PASS" + "" == FinalLine("PASS");
    }
  }

  function Last(out: seq<string>): string
    requires out != []
  {
    out[|out| - 1]
  }

  /** A text is printed by a run of statements exactly when one of them is the `print` of that text. */
  lemma {:induction false} EchoesIff(actions: seq<Action>, t: string)
    ensures t in Echoes(actions) <==> Echo(t) in actions
    decreases |actions|
  {
    if actions != [] {
      var init := actions[..|actions| - 1];
      EchoesIff(init, t);
      assert actions == init + [actions[|actions| - 1]];
    }
  }

  /**
   * Between the first line and the verdict, a run prints exactly the texts of
   * the `print` statements it reached: all of them after every step, only those
   * before the raising statement otherwise.
   */
  lemma ScriptOutputEchoes(sc: Script, end: RunEnd, t: string)
    ensures var out := ScriptOutput(sc, end);
      var reached := if end.AllStepsDone? then sc.actions
                     else sc.actions[..if end.step <= |sc.actions| then end.step else |sc.actions|];
      t in out[1..|out| - 2] <==> Echo(t) in reached
  {
    var reached := if end.AllStepsDone? then sc.actions
                   else sc.actions[..if end.step <= |sc.actions| then end.step else |sc.actions|];
    var out := ScriptOutput(sc, end);
    assert out[1..|out| - 2] == Echoes(reached);
    EchoesIff(reached, t);
  }

  /** The line the click branch prints for a selector. */
  function ClickLine(sel: string): string {
    "  \U{2192} Clicking " + sel
  }

  /**
   * A click step prints the selector as chosen, and clicks its escaped form,
   * which reads back as the same selector.
   */
  lemma ClickEchoShowsSelector(i: nat, step: string)
    requires AnyIn(Lower(step), ClickKeywords)
    ensures var sel := ClickSelector(Lower(step), step, ExtractSelectors(step));
      Echo(ClickLine(sel)) in StepActions(i, step) && Click(EscapeQuotes(sel)) in StepActions(i, step)
      && UnescapeQuotes(EscapeQuotes(sel)) == sel
  {
    var lower := Lower(step);
    var sel := ClickSelector(lower, step, ExtractSelectors(step));
    var c := ClickSegment(step, lower, ExtractSelectors(step));
    StepSegments(i, step);
    assert c[0] == Echo(ClickLine(sel)) && c[0] in StepActions(i, step);
    assert c[1] in StepActions(i, step);
    UnescapeEscape(sel);
  }

  /** Every statement of step k + 1 is a statement of the script body. */
  lemma {:induction false} StepInSteps(steps: seq<string>, k: nat, a: Action)
    requires k < |steps| && a in StepActions(k + 1, steps[k])
    ensures a in StepsActions(steps)
    decreases |steps|
  {
    if k < |steps| - 1 {
      StepInSteps(steps[..|steps| - 1], k, a);
    }
  }

  /** After all steps ran, each click step's line shows its selector without escapes. */
  lemma ClickLinePrinted(tc: TestCase, suite: string, creds: Credentials, now: string, k: nat)
    requires k < |tc.steps| && AnyIn(Lower(tc.steps[k]), ClickKeywords)
    ensures var out := ScriptOutput(ScriptFor(tc, suite, creds, now), AllStepsDone);
      ClickLine(ClickSelector(Lower(tc.steps[k]), tc.steps[k], ExtractSelectors(tc.steps[k]))) in out[1..|out| - 2]
  {
    var step := tc.steps[k];
    var line := ClickLine(ClickSelector(Lower(step), step, ExtractSelectors(step)));
    ClickEchoShowsSelector(k + 1, step);
    StepInSteps(tc.steps, k, Echo(line));
    ScriptOutputEchoes(ScriptFor(tc, suite, creds, now), AllStepsDone, line);
  }

  // ---------------------------------------------------------------------------
  // Metadata

  datatype Metadata = Metadata(
    suiteName: string,
    generatedAt: string,
    testCount: nat,
    scripts: seq<string>,
    url: Option<string>,
    username: Option<string>)

  /** `credentials.get(k) if credentials else ""`: None is JSON null. */
  function MetadataCred(creds: Option<Credentials>, k: string): Option<string> {
    if creds.None? || creds.value == map[] then Some("")
    else if k in creds.value then creds.value[k]
    else None
  }

  function MetadataFor(suite: string, cases: seq<Json>, scripts: seq<string>, creds: Option<Credentials>, now: string): Metadata {
    Metadata(suite, now, |cases|, scripts, MetadataCred(creds, "url"), MetadataCred(creds, "username"))
  }

  /** Without credentials the url and username are recorded as ""; with them, as given. */
  lemma MetadataCredentials(suite: string, cases: seq<Json>, scripts: seq<string>, creds: Option<Credentials>, now: string)
    ensures creds.None? ==> (MetadataFor(suite, cases, scripts, creds, now).url == Some("") &&
                             MetadataFor(suite, cases, scripts, creds, now).username == Some(""))
    ensures creds.Some? && "url" in creds.value ==> MetadataFor(suite, cases, scripts, creds, now).url == creds.value["url"]
    ensures creds.Some? && "username" in creds.value ==> MetadataFor(suite, cases, scripts, creds, now).username == creds.value["username"]
    ensures MetadataFor(suite, cases, scripts, creds, now).testCount == |cases|
  {
  }

  /** The metadata does not depend on the password. */
  lemma MetadataIgnoresPassword(suite: string, cases: seq<Json>, scripts: seq<string>, creds: Credentials, now: string, p1: Option<string>, p2: Option<string>)
    ensures MetadataFor(suite, cases, scripts, Some(creds["password" := p1]), now)
         == MetadataFor(suite, cases, scripts, Some(creds["password" := p2]), now)
  {
    assert "password" in creds["password" := p1] && "password" in creds["password" := p2];
    assert creds["password" := p1] != map[] && creds["password" := p2] != map[];
  }

  // ---------------------------------------------------------------------------
  // Files

  datatype FileContent = ScriptFile(script: Script) | MetadataFile(meta: Metadata)

  /** The end of a `write_text`: the path written, or the message of the exception it raised. */
  datatype Written = Wrote(path: string) | WriteRaised(message: string)

  /**
   * The file system as far as the generator writes it: path to contents, and
   * the paths at which `write_text` raises (a directory that does not exist,
   * a name the system refuses), each with the message of the `OSError`.
   */
  class Disk {
    var files: map<string, FileContent>
    const refused: map<string, string>

    constructor(refused: map<string, string>)
      ensures files == map[] && this.refused == refused
    {
      files := map[];
      this.refused := refused;
    }
  }

  /** The URL a generated script navigates to when it runs from directory `dir`: the metadata beside it wins. */
  function RuntimeUrl(files: map<string, FileContent>, dir: string, sc: Script): Option<string> {
    var path := dir + "/" + sc.metadataFile;
    if path in files && files[path].MetadataFile? then files[path].meta.url
    else Some(sc.fallbackUrl)
  }

  const DefaultOutputDir: string := "generated_tests"

  class PlaywrightGenerator {
    const outputDir: string
    const disk: Disk

    /** The directory is created on demand; in the map model every directory exists. */
    constructor(outputDir: string, disk: Disk)
      ensures this.outputDir == outputDir && this.disk == disk
    {
      this.outputDir := outputDir;
      this.disk := disk;
    }

    /**
     * Writes the script of one test case and returns its path; None where the
     * source raises: before writing, for a case it cannot convert, or in
     * `write_text`, for a refused path.  Nothing is written when it raises.
     */
    method GenerateScript(testCase: Json, suite: string, creds: Credentials, now: string) returns (r: Option<string>)
      modifies disk
      ensures AsTestCase(testCase).None? ==> r.None? && disk.files == old(disk.files)
      ensures AsTestCase(testCase).Some? && ScriptPath(outputDir, suite, AsTestCase(testCase).value) in disk.refused ==>
        r.None? && disk.files == old(disk.files)
      ensures AsTestCase(testCase).Some? && ScriptPath(outputDir, suite, AsTestCase(testCase).value) !in disk.refused ==>
        r == Some(ScriptPath(outputDir, suite, AsTestCase(testCase).value)) &&
        disk.files == old(disk.files)[r.value := ScriptFile(ScriptFor(AsTestCase(testCase).value, suite, creds, now))]
    {
      var tc := AsTestCase(testCase);
      if tc.None? {
        return None;
      }
      var path := outputDir + "/" + FileName(suite, tc.value);
      var script := CreateScriptContent(tc.value, suite, creds, now);
      if path in disk.refused {
        return None;
      }
      disk.files := disk.files[path := ScriptFile(script)];
      r := Some(path);
    }

    /** `_create_script_content`: the docstring loop, then the per-step loop. */
    static method CreateScriptContent(tc: TestCase, suite: string, creds: Credentials, now: string) returns (sc: Script)
      ensures sc == ScriptFor(tc, suite, creds, now)
    {
      var steps := tc.steps;
      var doc: seq<string> := [];
      var i := 0;
      while i < |steps|
        invariant 0 <= i <= |steps|
        invariant doc == DocLines(steps[..i])
        decreases |steps| - i
      {
        assert steps[..i + 1][..i] == steps[..i];
        doc := doc + [DocLine(i + 1, steps[i])];
        i := i + 1;
      }
      assert steps[..i] == steps;
      var body := EmitSteps(steps);
      sc := Script(tc.id, tc.title, suite, now, FunctionName(tc.id), doc, MetadataName(suite),
                   CredText(creds, "url"), CredText(creds, "username"), body);
    }

    /** The per-step loop of `_create_script_content`, numbering steps from 1. */
    static method EmitSteps(steps: seq<string>) returns (body: seq<Action>)
      ensures body == StepsActions(steps)
    {
      body := [];
      var i := 0;
      while i < |steps|
        invariant 0 <= i <= |steps|
        invariant body == StepsActions(steps[..i])
        decreases |steps| - i
      {
        assert steps[..i + 1][..i] == steps[..i];
        var out := EmitStep(i + 1, steps[i]);
        body := body + out;
        i := i + 1;
      }
      assert steps[..i] == steps;
    }

    /** Writes `{suite}_metadata.json` and returns its path; an error message where `write_text` raises, with nothing written. */
    method SaveTestMetadata(suite: string, cases: seq<Json>, scripts: seq<string>, creds: Option<Credentials>, now: string)
      returns (r: Written)
      modifies disk
      ensures var path := outputDir + "/" + MetadataName(suite);
        if path in disk.refused then r == WriteRaised(disk.refused[path]) && disk.files == old(disk.files)
        else r == Wrote(path) && disk.files == old(disk.files)[path := MetadataFile(MetadataFor(suite, cases, scripts, creds, now))]
    {
      var path := outputDir + "/" + MetadataName(suite);
      if path in disk.refused {
        return WriteRaised(disk.refused[path]);
      }
      disk.files := disk.files[path := MetadataFile(MetadataFor(suite, cases, scripts, creds, now))];
      r := Wrote(path);
    }
  }
}
