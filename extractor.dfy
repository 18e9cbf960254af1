/**
 * Result extraction of `generate_tests` (src/core/server.py 96-196): the
 * strategies that recover a JSON document from the exploration agent's
 * free text, the truncation repair, the validation of test cases and the
 * synthetic cases used when everything fails.
 *
 * The three regular expressions of the source are hand-coded here with
 * their exact backtracking behaviour:
 *   line 114  ```(?:json)?\s*(\{.*?\})\s*```   (DOTALL)   FencedBlock
 *   line 125  \{[^\{]*"test_cases"              (DOTALL)   MarkerStart
 *   line 153  re.sub(r',\s*([\]\}])', r'\1', ...)           StripCommas
 */
module Extractor {
  import opened Base
  import opened Json

  // ===========================================================================
  // Shared scanning helpers

  /** The end of the maximal run of whitespace starting at i (what a greedy `\s*` consumes). */
  function SkipSpace(s: string, i: nat): (r: nat)
    requires i <= |s|
    ensures i <= r <= |s|
    ensures r == |s| || !IsSpace(s[r])
    decreases |s| - i
  {
    if i < |s| && IsSpace(s[i]) then SkipSpace(s, i + 1) else i
  }

  /** Everything `\s*` consumes is whitespace. */
  lemma {:induction false} SkipSpaceSpaces(s: string, i: nat)
    requires i <= |s|
    ensures forall k :: i <= k < SkipSpace(s, i) ==> IsSpace(s[k])
    decreases |s| - i
  {
    if i < |s| && IsSpace(s[i]) {
      SkipSpaceSpaces(s, i + 1);
    }
  }

  /** Whitespace up to j followed by a non-space (or the end) is exactly what `\s*` consumes. */
  lemma {:induction false} SkipSpaceTo(s: string, i: nat, j: nat)
    requires i <= j <= |s| && (j == |s| || !IsSpace(s[j]))
    requires forall k :: i <= k < j ==> IsSpace(s[k])
    ensures SkipSpace(s, i) == j
    decreases j - i
  {
    if i < j {
      SkipSpaceTo(s, i + 1, j);
    }
  }

  /** Three backticks at offset i. */
  predicate Ticks(s: string, i: nat) {
    i + 3 <= |s| && s[i] == '`' && s[i + 1] == '`' && s[i + 2] == '`'
  }

  /** The optional `json` tag at offset i. */
  predicate JsonTag(s: string, i: nat) {
    i + 4 <= |s| && s[i] == 'j' && s[i + 1] == 's' && s[i + 2] == 'o' && s[i + 3] == 'n'
  }

  // ===========================================================================
  // Method 2: the fenced block (server.py:114)

  /** A `}` at e closes the lazy group: `\s*` then three backticks follow it. */
  predicate ClosesAt(s: string, e: nat) {
    e < |s| && s[e] == '}' && Ticks(s, SkipSpace(s, e + 1))
  }

  /** The brace where the group opens for a match starting at i: "```", optional "json", `\s*`, `{`. */
  function FenceOpen(s: string, i: nat): (r: Option<nat>)
    ensures r.Some? ==> i + 3 <= r.value < |s| && s[r.value] == '{'
  {
    if !Ticks(s, i) then None
    else if JsonTag(s, i + 3) && SkipSpace(s, i + 7) < |s| && s[SkipSpace(s, i + 7)] == '{' then
      Some(SkipSpace(s, i + 7))
    else if SkipSpace(s, i + 3) < |s| && s[SkipSpace(s, i + 3)] == '{' then
      Some(SkipSpace(s, i + 3))
    else None
  }

  /** The lazy `.*?\}`: the first position from k on whose `}` closes the group. */
  function FenceClose(s: string, k: nat): (r: Option<nat>)
    requires k <= |s|
    ensures r.Some? ==> k <= r.value < |s| && ClosesAt(s, r.value)
    ensures r.Some? ==> forall e :: k <= e < r.value ==> !ClosesAt(s, e)
    ensures r.None? ==> forall e :: k <= e < |s| ==> !ClosesAt(s, e)
    decreases |s| - k
  {
    if k == |s| then None
    else if ClosesAt(s, k) then Some(k)
    else FenceClose(s, k + 1)
  }

  /** A complete match of the fence pattern starting at offset i, with its group `s[b..e+1]`. */
  predicate FenceMatch(s: string, i: nat, b: nat, e: nat) {
    FenceOpen(s, i) == Some(b) && b < e && ClosesAt(s, e)
  }

  /** The pattern cannot match at offset st: no opening, or no close after the opening. */
  predicate NoFenceAt(s: string, st: nat) {
    FenceOpen(s, st).None? || FenceClose(s, FenceOpen(s, st).value + 1).None?
  }

  lemma NoFenceAtMeans(s: string, st: nat)
    requires NoFenceAt(s, st)
    ensures forall b: nat, e: nat :: !FenceMatch(s, st, b, e)
  {
  }

  /** The leftmost match at or after offset i: its start, its brace and its closing brace. */
  function FenceFind(s: string, i: nat): (r: Option<(nat, nat, nat)>)
    requires i <= |s|
    ensures r.Some? ==> i <= r.value.0 && FenceMatch(s, r.value.0, r.value.1, r.value.2)
    ensures r.Some? ==> forall e :: r.value.1 < e < r.value.2 ==> !ClosesAt(s, e)
    ensures r.Some? ==> forall st :: i <= st < r.value.0 ==> NoFenceAt(s, st)
    ensures r.None? ==> forall st :: i <= st < |s| ==> NoFenceAt(s, st)
    decreases |s| - i
  {
    if i == |s| then None
    else if NoFenceAt(s, i) then FenceFind(s, i + 1)
    else Some((i, FenceOpen(s, i).value, FenceClose(s, FenceOpen(s, i).value + 1).value))
  }

  /** `re.search(fence, raw, re.DOTALL).group(1)`, None when there is no match. */
  function FencedBlock(s: string): Option<string> {
    match FenceFind(s, 0)
    case Some(m) => Some(s[m.1..m.2 + 1])
    case None => None
  }

  /**
   * The group found is that of the LEFTMOST offset at which the pattern
   * matches, and ends at the FIRST closing brace followed by a fence; there is
   * no group exactly when the pattern matches nowhere.
   */
  lemma FencedBlockSpec(s: string)
    ensures FencedBlock(s).Some? ==> exists st: nat, b: nat, e: nat ::
      FenceMatch(s, st, b, e) && FencedBlock(s) == Some(s[b..e + 1])
      && (forall e' :: b < e' < e ==> !ClosesAt(s, e'))
      && (forall st': nat, b': nat, e': nat :: st' < st ==> !FenceMatch(s, st', b', e'))
    ensures FencedBlock(s).None? ==> forall st: nat, b: nat, e: nat :: !FenceMatch(s, st, b, e)
  {
    var r := FenceFind(s, 0);
    var bound := if r.Some? then r.value.0 else |s|;
    forall st: nat, b: nat, e: nat | st < bound ensures !FenceMatch(s, st, b, e) {
      NoFenceAtMeans(s, st);
    }
    if r.None? {
      forall st: nat, b: nat, e: nat ensures !FenceMatch(s, st, b, e) {
        if st >= |s| { assert FenceOpen(s, st).None?; }
      }
    } else {
      var st, b, e := r.value.0, r.value.1, r.value.2;
      assert FenceMatch(s, st, b, e) && FencedBlock(s) == Some(s[b..e + 1]);
    }
  }

  /** A close position with no earlier close is what FenceClose returns. */
  lemma {:induction false} FenceCloseFirst(s: string, k: nat, e: nat)
    requires k <= e < |s| && ClosesAt(s, e)
    requires forall e' :: k <= e' < e ==> !ClosesAt(s, e')
    ensures FenceClose(s, k) == Some(e)
    decreases e - k
  {
    if k < e {
      FenceCloseFirst(s, k + 1, e);
    }
  }

  /** Offsets where the pattern cannot match are skipped by the search. */
  lemma {:induction false} FenceFindFrom(s: string, i: nat, t: nat)
    requires i <= t <= |s|
    requires forall st :: i <= st < t ==> NoFenceAt(s, st)
    ensures FenceFind(s, i) == FenceFind(s, t)
    decreases t - i
  {
    if i < t {
      FenceFindFrom(s, i + 1, t);
    }
  }

  /** A fence opening "```json\n{" or "```\n{" at offset i opens the group on its brace. */
  lemma FenceOpenAt(s: string, i: nat, header: string)
    requires header == "```json\n" || header == "```\n"
    requires OccursAt(s, header, i) && i + |header| < |s| && s[i + |header|] == '{'
    ensures FenceOpen(s, i) == Some(i + |header|)
  {
    var b := i + |header|;
    forall k | 0 <= k < |header| ensures s[i + k] == header[k] {
      assert s[i..b][k] == s[i + k];
    }
    assert Ticks(s, i) by { assert s[i] == header[0] && s[i + 1] == header[1] && s[i + 2] == header[2]; }
    if header == "```json\n" {
      assert JsonTag(s, i + 3) by {
        assert s[i + 3] == header[3] && s[i + 4] == header[4] && s[i + 5] == header[5] && s[i + 6] == header[6];
      }
      assert s[i + 7] == header[7] == '\n';
      SkipSpaceTo(s, i + 7, i + 8);
      assert SkipSpace(s, i + 7) == b;
    } else {
      assert s[i + 3] == header[3] == '\n';
      assert !JsonTag(s, i + 3);
      SkipSpaceTo(s, i + 3, i + 4);
      assert SkipSpace(s, i + 3) == b;
    }
  }

  /** A `}` followed by "\n```" closes the group. */
  lemma FenceCloseAt(s: string, e: nat)
    requires e < |s| && s[e] == '}' && OccursAt(s, "\n```", e + 1)
    ensures ClosesAt(s, e)
  {
    forall k | 0 <= k < 4 ensures s[e + 1 + k] == "\n```"[k] {
      assert s[e + 1..e + 5][k] == s[e + 1 + k];
    }
    SkipSpaceTo(s, e + 1, e + 2);
  }

  /** Without backticks after b up to a non-space at e, no `}` before e can close. */
  lemma NoEarlierClose(s: string, b: nat, e: nat)
    requires b < e < |s| && !IsSpace(s[e])
    requires forall k :: b < k <= e ==> s[k] != '`'
    ensures forall e' :: b < e' < e ==> !ClosesAt(s, e')
  {
    forall e' | b < e' < e ensures !ClosesAt(s, e') {
      var w := SkipSpace(s, e' + 1);
      SkipSpaceSpaces(s, e' + 1);
      assert w <= e;
    }
  }

  /** No backtick before t: the pattern starts nowhere before t. */
  lemma NoFenceBefore(s: string, t: nat)
    requires t <= |s| && forall k :: 0 <= k < t ==> s[k] != '`'
    ensures forall st :: 0 <= st < t ==> NoFenceAt(s, st)
  {
    forall st | 0 <= st < t ensures FenceOpen(s, st).None? {
      assert !Ticks(s, st);
    }
  }

  /**
   * A fence opening at i, a brace right after it, and a `}` at e followed by
   * "\n```", with no backtick before i nor between the braces: the group is
   * exactly the text between the braces.
   */
  lemma FencedBlockAt(s: string, i: nat, header: string, e: nat)
    requires header == "```json\n" || header == "```\n"
    requires OccursAt(s, header, i) && i + |header| < e < |s|
    requires s[i + |header|] == '{' && s[e] == '}' && OccursAt(s, "\n```", e + 1)
    requires forall k :: 0 <= k < i ==> s[k] != '`'
    requires forall k :: i + |header| < k <= e ==> s[k] != '`'
    ensures FencedBlock(s) == Some(s[i + |header|..e + 1])
  {
    var b := i + |header|;
    assert FenceFind(s, 0) == Some((i, b, e)) by {
      FenceCloseAfter(s, b, e);
      FenceOpenAt(s, i, header);
      FenceFindSkips(s, i);
      FenceFindHere(s, i, b, e);
    }
    FencedBlockOf(s, i, b, e);
  }

  /** The first `}` followed by a fence after b, where no backtick comes between. */
  lemma FenceCloseAfter(s: string, b: nat, e: nat)
    requires b < e < |s| && s[e] == '}' && OccursAt(s, "\n```", e + 1)
    requires forall k :: b < k <= e ==> s[k] != '`'
    ensures FenceClose(s, b + 1) == Some(e)
  {
    FenceCloseAt(s, e);
    NoEarlierClose(s, b, e);
    FenceCloseFirst(s, b + 1, e);
  }

  /** The search passes over a prefix with no backtick. */
  lemma FenceFindSkips(s: string, i: nat)
    requires i <= |s| && forall k :: 0 <= k < i ==> s[k] != '`'
    ensures FenceFind(s, 0) == FenceFind(s, i)
  {
    NoFenceBefore(s, i);
    FenceFindFrom(s, 0, i);
  }

  /** The group of the match the search returns. */
  lemma FencedBlockOf(s: string, i: nat, b: nat, e: nat)
    requires FenceFind(s, 0) == Some((i, b, e)) && b <= e < |s|
    ensures FencedBlock(s) == Some(s[b..e + 1])
  {
  }

  /** Where the pattern opens and closes at i, the search from i stops there. */
  lemma FenceFindHere(s: string, i: nat, b: nat, e: nat)
    requires i < |s| && FenceOpen(s, i) == Some(b) && b + 1 <= |s| && FenceClose(s, b + 1) == Some(e)
    ensures FenceFind(s, i) == Some((i, b, e))
  {
    assert !NoFenceAt(s, i);
  }

  /**
   * Text wrapped in a json (or bare) fence, after prose with no backtick,
   * yields the wrapped object as the group whatever follows the fence.
   */
  lemma FencedBlockOfWrapped(prose: string, header: string, j: string, tail: string)
    requires header == "```json\n" || header == "```\n"
    requires '`' !in prose && '`' !in j
    requires |j| >= 2 && j[0] == '{' && j[|j| - 1] == '}'
    ensures FencedBlock(prose + header + j + "\n```" + tail) == Some(j)
  {
    var p, rest := prose + header, "\n```" + tail;
    var s := p + j + rest;
    assert s == prose + header + (j + rest) == prose + header + j + "\n```" + tail;
    WrappedHead(prose, header, j + rest);
    WrappedBody(p, j, tail);
    FencedBlockAt(s, |prose|, header, |p| + |j| - 1);
  }

  /** Prose without backticks, then the fence header. */
  lemma WrappedHead(prose: string, header: string, rest: string)
    requires '`' !in prose
    ensures OccursAt(prose + header + rest, header, |prose|)
    ensures forall k :: 0 <= k < |prose| ==> (prose + header + rest)[k] != '`'
  {
    PartAt(prose, header, rest);
  }

  /** The wrapped object after offset |p|, then the closing fence. */
  lemma WrappedBody(p: string, j: string, tail: string)
    requires '`' !in j && |j| >= 2 && j[0] == '{' && j[|j| - 1] == '}'
    ensures var s := p + j + "\n```" + tail;
      s[|p|] == '{' && s[|p| + |j| - 1] == '}' && OccursAt(s, "\n```", |p| + |j|)
      && s[|p|..|p| + |j|] == j
      && forall k :: |p| < k <= |p| + |j| - 1 ==> s[k] != '`'
  {
    var s := p + j + "\n```" + tail;
    PartAt(p, j, "\n```" + tail);
    assert s == p + j + ("\n```" + tail);
    PartAt(p + j, "\n```", tail);
  }

  /** The parts of a three-part text sit at their offsets. */
  lemma PartAt(a: string, m: string, c: string)
    ensures OccursAt(a + m + c, m, |a|)
    ensures forall k :: 0 <= k < |a| ==> (a + m + c)[k] == a[k]
    ensures forall k :: |a| <= k < |a| + |m| ==> (a + m + c)[k] == m[k - |a|]
  {
    assert (a + m + c)[|a|..|a| + |m|] == m;
  }

  // ===========================================================================
  // Method 3: the marker-anchored suffix (server.py:125-131)

  const Marker: string := "\"test_cases\""

  /** Can `[^\{]*"test_cases"` match from offset k: the marker before any `{`. */
  predicate MarkerBeforeBrace(s: string, k: nat)
    decreases |s| - k
  {
    k < |s| && (StartsWith(s[k..], Marker) || (s[k] != '{' && MarkerBeforeBrace(s, k + 1)))
  }

  /** Declarative reading: the marker occurs at j after k with no `{` in between. */
  lemma {:induction false} MarkerBeforeBraceIff(s: string, k: nat)
    ensures MarkerBeforeBrace(s, k) <==>
      exists j :: k <= j && OccursAt(s, Marker, j) && forall m :: k <= m < j ==> s[m] != '{'
    decreases |s| - k
  {
    if k < |s| {
      assert OccursAt(s, Marker, k) <==> StartsWith(s[k..], Marker) by {
        if k + |Marker| <= |s| { assert s[k..][..|Marker|] == s[k..k + |Marker|]; }
      }
      MarkerBeforeBraceIff(s, k + 1);
      if MarkerBeforeBrace(s, k) {
        if !StartsWith(s[k..], Marker) {
          var j :| k + 1 <= j && OccursAt(s, Marker, j) && forall m :: k + 1 <= m < j ==> s[m] != '{';
          assert forall m :: k <= m < j ==> s[m] != '{';
        }
      }
      forall j | k <= j && OccursAt(s, Marker, j) && (forall m :: k <= m < j ==> s[m] != '{')
        ensures MarkerBeforeBrace(s, k)
      {
        if j > k {
          assert s[k] != '{';
          assert forall m :: k + 1 <= m < j ==> s[m] != '{';
        }
      }
    } else {
      forall j | k <= j ensures !OccursAt(s, Marker, j) {
      }
    }
  }

  /** The pattern `\{[^\{]*"test_cases"` matches starting at offset i. */
  predicate MarkerAt(s: string, i: nat) {
    i < |s| && s[i] == '{' && MarkerBeforeBrace(s, i + 1)
  }

  /** The leftmost match start at or after i. */
  function MarkerSearch(s: string, i: nat): (r: Option<nat>)
    requires i <= |s|
    ensures r.Some? ==> i <= r.value < |s| && MarkerAt(s, r.value)
    ensures r.Some? ==> forall k :: i <= k < r.value ==> !MarkerAt(s, k)
    ensures r.None? ==> forall k :: i <= k < |s| ==> !MarkerAt(s, k)
    decreases |s| - i
  {
    if i == |s| then None
    else if MarkerAt(s, i) then Some(i)
    else MarkerSearch(s, i + 1)
  }

  /** `re.search(marker, raw).start()`. */
  function MarkerStart(s: string): Option<nat> {
    MarkerSearch(s, 0)
  }

  /** `.replace('\n', ' ').replace('\r', '')`. */
  function Flatten(s: string): (r: string)
    ensures '\n' !in r && '\r' !in r
  {
    ReplaceChar(ReplaceChar(s, '\n', " "), '\r', "")
  }

  /** The Method 3 candidate `json_str`: the suffix from the marker's brace, flattened. */
  function MarkerCandidate(s: string): Option<string> {
    match MarkerStart(s)
    case Some(i) => Some(Flatten(s[i..]))
    case None => None
  }

  /**
   * The candidate begins at the FIRST `{` that is followed by `"test_cases"`
   * with no other `{` in between, and runs to the end of the text.
   */
  lemma MarkerCandidateSpec(s: string)
    ensures MarkerCandidate(s).Some? <==> exists i :: 0 <= i < |s| && MarkerAt(s, i)
    ensures MarkerCandidate(s).Some? ==> exists i, j ::
      0 <= i < |s| && i < j && s[i] == '{' && OccursAt(s, Marker, j)
      && (forall m :: i < m < j ==> s[m] != '{')
      && (forall k :: 0 <= k < i ==> !MarkerAt(s, k))
      && MarkerCandidate(s) == Some(Flatten(s[i..]))
  {
    if MarkerCandidate(s).Some? {
      var i := MarkerStart(s).value;
      MarkerBeforeBraceIff(s, i + 1);
      var j :| i + 1 <= j && OccursAt(s, Marker, j) && forall m :: i + 1 <= m < j ==> s[m] != '{';
      assert 0 <= i < j && s[i] == '{';
    }
  }

  // ===========================================================================
  // Truncation repair (server.py:142-153)

  predicate IsCloser(c: char) {
    c == ']' || c == '}'
  }

  /** `re.sub(r',\s*([\]\}])', r'\1', s)`: a left-to-right, non-overlapping rewrite. */
  function StripCommas(s: string): string
    decreases |s|
  {
    if s == [] then []
    else if s[0] == ',' && SkipSpace(s, 1) < |s| && IsCloser(s[SkipSpace(s, 1)]) then
      [s[SkipSpace(s, 1)]] + StripCommas(s[SkipSpace(s, 1) + 1..])
    else [s[0]] + StripCommas(s[1..])
  }

  lemma CountSpaces(s: string, i: nat, j: nat, c: char)
    requires i <= j <= |s| && !IsSpace(c)
    requires forall k :: i <= k < j ==> IsSpace(s[k])
    ensures Count(s[i..j], c) == 0
    decreases j - i
  {
    if i < j {
      assert s[i..j][1..] == s[i + 1..j];
      CountSpaces(s, i + 1, j, c);
    }
  }

  /** The rewrite deletes only commas and whitespace: every other character keeps its count. */
  lemma {:induction false} StripCommasKeepsCount(s: string, c: char)
    requires c != ',' && !IsSpace(c)
    ensures Count(StripCommas(s), c) == Count(s, c)
    decreases |s|
  {
    if s == [] {
    } else if s[0] == ',' && SkipSpace(s, 1) < |s| && IsCloser(s[SkipSpace(s, 1)]) {
      var j := SkipSpace(s, 1);
      StripCommasKeepsCount(s[j + 1..], c);
      CountAppend([s[j]], StripCommas(s[j + 1..]), c);
      SkipSpaceSpaces(s, 1);
      CommaRunCount(s, j, c);
    } else {
      StripCommasKeepsCount(s[1..], c);
      CountAppend([s[0]], StripCommas(s[1..]), c);
      assert s == [s[0]] + s[1..];
      CountAppend([s[0]], s[1..], c);
    }
  }

  /** A comma and the whitespace after it up to j hold no c. */
  lemma CommaRunCount(s: string, j: nat, c: char)
    requires 1 <= j < |s| && s[0] == ',' && c != ',' && !IsSpace(c)
    requires forall k :: 1 <= k < j ==> IsSpace(s[k])
    ensures Count(s, c) == Count([s[j]], c) + Count(s[j + 1..], c)
  {
    CountSpaces(s, 1, j, c);
    assert s == [s[0]] + (s[1..j] + ([s[j]] + s[j + 1..]));
    CountAppend([s[0]], s[1..j] + ([s[j]] + s[j + 1..]), c);
    CountAppend(s[1..j], [s[j]] + s[j + 1..], c);
    CountAppend([s[j]], s[j + 1..], c);
  }

  /** Text without commas is left untouched. */
  lemma {:induction false} StripCommasNoComma(s: string)
    requires ',' !in s
    ensures StripCommas(s) == s
    decreases |s|
  {
    if s != [] {
      assert ',' !in s[1..];
      StripCommasNoComma(s[1..]);
      assert s == [s[0]] + s[1..];
    }
  }

  /**
   * The first comma that is followed by whitespace and a closer is removed
   * together with that whitespace, and the rewrite goes on after the closer.
   */
  lemma {:induction false} StripCommasBeforeCloser(a: string, w: string, c: char, b: string)
    requires ',' !in a && IsCloser(c)
    requires forall k :: 0 <= k < |w| ==> IsSpace(w[k])
    ensures StripCommas(a + [','] + w + [c] + b) == a + [c] + StripCommas(b)
    decreases |a|
  {
    var s := a + [','] + w + [c] + b;
    if a == [] {
      assert s == [','] + w + [c] + b;
      forall k | 1 <= k < 1 + |w| ensures IsSpace(s[k]) {
        assert s[k] == w[k - 1];
      }
      assert s[1 + |w|] == c;
      SkipSpaceTo(s, 1, 1 + |w|);
      assert s[1 + |w| + 1..] == b;
    } else {
      assert s[0] == a[0];
      assert s[1..] == a[1..] + [','] + w + [c] + b;
      StripCommasBeforeCloser(a[1..], w, c, b);
      assert a == [a[0]] + a[1..];
    }
  }

  /** `repaired_str` of line 153. */
  function Repair(s: string): string {
    StripCommas(s
      + Repeat("\"]", Count(s, '[') - Count(s, ']'))
      + Repeat("}", Count(s, '{') - Count(s, '}')))
  }

  function Deficit(open: nat, close: nat): nat {
    if open > close then open - close else 0
  }

  /** What repair adds of a bracket or quote character c: the closers of the excess. */
  lemma RepairCount(s: string, c: char)
    requires c == '[' || c == '{' || c == ']' || c == '}' || c == '"'
    ensures Count(Repair(s), c) == Count(s, c)
      + (if c == ']' || c == '"' then Deficit(Count(s, '['), Count(s, ']')) else 0)
      + (if c == '}' then Deficit(Count(s, '{'), Count(s, '}')) else 0)
  {
    var nb, nc := Count(s, '[') - Count(s, ']'), Count(s, '{') - Count(s, '}');
    var a, b := Repeat("\"]", nb), Repeat("}", nc);
    assert Repair(s) == StripCommas(s + a + b);
    StripCommasKeepsCount(s + a + b, c);
    CountAppend(s + a, b, c);
    CountAppend(s, a, c);
    QuoteBracketTail(nb);
    BraceTail(nc);
    assert Count(a, c) == if c == ']' || c == '"' then Deficit(Count(s, '['), Count(s, ']')) else 0;
    assert Count(b, c) == if c == '}' then Deficit(Count(s, '{'), Count(s, '}')) else 0;
  }

  /**
   * Repair closes exactly the excess: it adds one `]` (and one `"`) per `[`
   * in excess of `]`, one `}` per `{` in excess of `}`, no opening bracket,
   * and nothing when there is no excess -- so an excess of openers becomes a
   * balance.
   */
  lemma RepairCounts(s: string)
    ensures Count(Repair(s), '[') == Count(s, '[')
    ensures Count(Repair(s), '{') == Count(s, '{')
    ensures Count(Repair(s), ']') == Count(s, ']') + Deficit(Count(s, '['), Count(s, ']'))
    ensures Count(Repair(s), '}') == Count(s, '}') + Deficit(Count(s, '{'), Count(s, '}'))
    ensures Count(Repair(s), '"') == Count(s, '"') + Deficit(Count(s, '['), Count(s, ']'))
    ensures Count(s, '[') >= Count(s, ']') ==> Count(Repair(s), '[') == Count(Repair(s), ']')
    ensures Count(s, '{') >= Count(s, '}') ==> Count(Repair(s), '{') == Count(Repair(s), '}')
  {
    RepairCount(s, '['); RepairCount(s, '{'); RepairCount(s, ']'); RepairCount(s, '}'); RepairCount(s, '"');
  }

  /** The `"]` tail holds one `]` and one `"` per repetition, and nothing else counted. */
  lemma QuoteBracketTail(n: int)
    ensures Count(Repeat("\"]", n), '[') == 0 && Count(Repeat("\"]", n), '{') == 0
    ensures Count(Repeat("\"]", n), '}') == 0
    ensures Count(Repeat("\"]", n), ']') == (if n <= 0 then 0 else n)
    ensures Count(Repeat("\"]", n), '"') == (if n <= 0 then 0 else n)
  {
    assert Count("\"]", '[') == 0 && Count("\"]", '{') == 0 && Count("\"]", ']') == 1;
    assert Count("\"]", '}') == 0 && Count("\"]", '"') == 1;
    CountRepeat("\"]", n, '['); CountRepeat("\"]", n, '{'); CountRepeat("\"]", n, ']');
    CountRepeat("\"]", n, '}'); CountRepeat("\"]", n, '"');
  }

  /** The `}` tail holds one `}` per repetition, and nothing else counted. */
  lemma BraceTail(n: int)
    ensures Count(Repeat("}", n), '[') == 0 && Count(Repeat("}", n), '{') == 0
    ensures Count(Repeat("}", n), ']') == 0 && Count(Repeat("}", n), '"') == 0
    ensures Count(Repeat("}", n), '}') == (if n <= 0 then 0 else n)
  {
    assert Count("}", '[') == 0 && Count("}", '{') == 0 && Count("}", ']') == 0;
    assert Count("}", '}') == 1 && Count("}", '"') == 0;
    CountRepeat("}", n, '['); CountRepeat("}", n, '{'); CountRepeat("}", n, ']');
    CountRepeat("}", n, '}'); CountRepeat("}", n, '"');
  }

  /** With nothing in excess and no comma, repair returns the text unchanged. */
  lemma RepairNoExcess(s: string)
    requires Count(s, '[') <= Count(s, ']') && Count(s, '{') <= Count(s, '}')
    requires ',' !in s
    ensures Repair(s) == s
  {
    assert s + Repeat("\"]", Count(s, '[') - Count(s, ']')) + Repeat("}", Count(s, '{') - Count(s, '}')) == s;
    StripCommasNoComma(s);
  }

  /**
   * A truncation right after a closed string is not made valid: the repair
   * appends `"]`, which starts a new string literal after the closed one.
   */
  lemma RepairAfterClosedString()
    ensures Repair("[\"c\"") == "[\"c\"\"]"
  {
    var s := "[\"c\"";
    assert Count(s, '[') == 1 && Count(s, ']') == 0 && Count(s, '{') == 0 && Count(s, '}') == 0;
    assert Repeat("\"]", 1) == "\"]";
    assert s + "\"]" + "" == "[\"c\"\"]";
    StripCommasNoComma("[\"c\"\"]");
  }

  // ===========================================================================
  // The chain (server.py:103-159)

  /** Method 2 on its own: the fenced block, decoded. */
  function FencedParse(s: string, loads: Loads): Option<Json> {
    match FencedBlock(s)
    case Some(g) => loads(g)
    case None => None
  }

  /** Method 3 on its own: the candidate decoded, else its repair decoded. */
  function MarkerParse(s: string, loads: Loads): Option<Json> {
    match MarkerCandidate(s)
    case Some(c) => if loads(c).Some? then loads(c) else loads(Repair(c))
    case None => None
  }

  predicate IsTruthy(p: Option<Json>) {
    p.Some? && Truthy(p.value)
  }

  /**
   * `parsed_json` after line 159.  Each later step runs only while the value
   * so far is falsy, and a step whose decode fails leaves the value as it was.
   */
  function ParsedJson(s: string, loads: Loads): Option<Json> {
    var p1 := loads(s);
    if IsTruthy(p1) then p1
    else
      var p2 := if FencedParse(s, loads).Some? then FencedParse(s, loads) else p1;
      if IsTruthy(p2) then p2
      else if MarkerParse(s, loads).Some? then MarkerParse(s, loads) else p2
  }

  /** The first truthy value in a list of candidates. */
  function FirstTruthy(cs: seq<Option<Json>>): Option<Json> {
    if cs == [] then None else if IsTruthy(cs[0]) then cs[0] else FirstTruthy(cs[1..])
  }

  /**
   * The chain is a first-success search over [direct, fenced, marker]: its
   * result is truthy exactly when some strategy yields a truthy value, and
   * then it is the value of the first such strategy in that order.
   */
  lemma ChainIsFirstTruthy(s: string, loads: Loads)
    ensures IsTruthy(ParsedJson(s, loads)) <==>
      exists k :: 0 <= k < 3 && IsTruthy([loads(s), FencedParse(s, loads), MarkerParse(s, loads)][k])
    ensures IsTruthy(ParsedJson(s, loads)) ==>
      ParsedJson(s, loads) == FirstTruthy([loads(s), FencedParse(s, loads), MarkerParse(s, loads)])
  {
    var a, b, c := loads(s), FencedParse(s, loads), MarkerParse(s, loads);
    var cs := [a, b, c];
    assert FirstTruthy([c]) == if IsTruthy(c) then c else None by {
      assert [c][1..] == [];
    }
    assert FirstTruthy([b, c]) == if IsTruthy(b) then b else FirstTruthy([c]) by {
      assert [b, c][1..] == [c];
    }
    assert FirstTruthy(cs) == if IsTruthy(a) then a else FirstTruthy([b, c]) by {
      assert cs[1..] == [b, c];
    }
    if IsTruthy(a) {
      assert IsTruthy(cs[0]);
    } else if IsTruthy(b) {
      assert IsTruthy(cs[1]);
    } else if IsTruthy(c) {
      assert IsTruthy(cs[2]);
    } else {
      assert forall k :: 0 <= k < 3 ==> !IsTruthy(cs[k]);
    }
  }

  // ===========================================================================
  // Validation and synthetic cases (server.py:163-196)

  /** `isinstance(tc, dict) and "id" in tc and "title" in tc and "steps" in tc`. */
  predicate ValidCase(j: Json) {
    HasKey(j, "id") && HasKey(j, "title") && HasKey(j, "steps")
  }

  /** `validated_cases`: the valid entries in their original order. */
  function ValidCases(xs: seq<Json>): seq<Json> {
    if xs == [] then [] else (if ValidCase(xs[0]) then [xs[0]] else []) + ValidCases(xs[1..])
  }

  /** Validation keeps exactly the valid entries. */
  lemma {:induction false} ValidCasesMembers(xs: seq<Json>)
    ensures forall j :: j in ValidCases(xs) <==> j in xs && ValidCase(j)
    ensures |ValidCases(xs)| <= |xs|
  {
    if xs != [] {
      ValidCasesMembers(xs[1..]);
      assert forall j :: j in xs <==> j == xs[0] || j in xs[1..];
    }
  }

  /** Validation commutes with concatenation, so the original order is kept. */
  lemma {:induction false} ValidCasesAppend(xs: seq<Json>, ys: seq<Json>)
    ensures ValidCases(xs + ys) == ValidCases(xs) + ValidCases(ys)
  {
    if xs == [] {
      assert xs + ys == ys;
    } else {
      var h := if ValidCase(xs[0]) then [xs[0]] else [];
      assert (xs + ys)[0] == xs[0] && (xs + ys)[1..] == xs[1..] + ys;
      calc {
        ValidCases(xs + ys);
        h + ValidCases(xs[1..] + ys);
        { ValidCasesAppend(xs[1..], ys); }
        h + (ValidCases(xs[1..]) + ValidCases(ys));
        (h + ValidCases(xs[1..])) + ValidCases(ys);
      }
    }
  }

  /** A list of valid entries passes validation unchanged. */
  lemma {:induction false} ValidCasesAllValid(xs: seq<Json>)
    requires forall j :: j in xs ==> ValidCase(j)
    ensures ValidCases(xs) == xs
  {
    if xs != [] {
      ValidCasesAllValid(xs[1..]);
      assert xs == [xs[0]] + xs[1..];
    }
  }

  /** `parsed_json.get("test_cases", [])` coerced to a list (a non-list becomes []). */
  function TestCaseList(fields: map<string, Json>): seq<Json> {
    if "test_cases" in fields && fields["test_cases"].JArr? then fields["test_cases"].items else []
  }

  /** A test-case dict with string id and title and a list of string steps. */
  function Case(id: string, title: string, steps: seq<string>): (r: Json)
    ensures ValidCase(r)
    ensures r.fields["id"] == JStr(id) && r.fields["title"] == JStr(title)
    ensures r.fields["steps"] == StrList(steps)
  {
    JObj(map["id" := JStr(id), "title" := JStr(title), "steps" := StrList(steps)])
  }

  const AgentFailedCase: Json :=
    Case("ERR", "Agent Failed", ["Agent returned no output. Check API key and network connection."])

  const ManualReviewCase: Json :=
    Case("TC001", "Manual Review Required",
      ["Agent completed task but returned no valid test cases. Please review the application manually."])

  const ParseErrorStep1: string := "Failed to extract valid JSON from agent response."
  const ParseErrorStep2: string := "Error details: Could not find valid JSON structure"

  function ParseErrorCase(raw: string): Json {
    Case("ERR", "JSON Parse Error", [ParseErrorStep1, ParseErrorStep2, "Raw output snippet: " + Take(raw, 200)])
  }

  /** The Python exceptions the extraction code can raise. */
  datatype PyError =
    | NameError(name: string)
    | AttributeError(typeName: string, attr: string)

  /** `str(e)` for those exceptions. */
  function Message(e: PyError): string {
    match e
    case NameError(n) => "name '" + n + "' is not defined"
    case AttributeError(t, a) => "'" + t + "' object has no attribute '" + a + "'"
  }

  /** The result of `generate_tests` before the response: a case list, or an exception raised. */
  datatype Extraction = Cases(cases: seq<Json>) | Raised(error: PyError)

  /** Lines 162-184 applied to a truthy decoded value. */
  function CasesFromParsed(p: Json): Extraction {
    if !p.JObj? then Raised(AttributeError(TypeName(p), "get"))
    else
      var validated := ValidCases(TestCaseList(p.fields));
      if validated != [] then Cases(validated) else Cases([ManualReviewCase])
  }

  /** Lines 96-196 as intended, with `re` available. */
  function ExtractCases(raw: Option<string>, loads: Loads): Extraction {
    if raw.None? || raw.value == "" then Cases([AgentFailedCase])
    else
      var p := ParsedJson(raw.value, loads);
      if IsTruthy(p) then CasesFromParsed(p.value)
      else Cases([ParseErrorCase(raw.value)])
  }

  /** Lines 96-196 as written: `re` is never imported, so line 114 raises. */
  function ExtractCasesAsWritten(raw: Option<string>, loads: Loads): Extraction {
    if raw.None? || raw.value == "" then Cases([AgentFailedCase])
    else if IsTruthy(loads(raw.value)) then CasesFromParsed(loads(raw.value).value)
    else Raised(NameError("re"))
  }

  // ===========================================================================
  // Properties of the extraction

  /** No output: one "ERR" / "Agent Failed" case with one step. */
  lemma NoOutputIsAgentFailed(raw: Option<string>, loads: Loads)
    requires raw.None? || raw.value == ""
    ensures ExtractCases(raw, loads) == Cases([AgentFailedCase])
    ensures AgentFailedCase.fields["id"] == JStr("ERR")
    ensures AgentFailedCase.fields["title"] == JStr("Agent Failed")
    ensures |AgentFailedCase.fields["steps"].items| == 1
  {
  }

  /** Nothing decodable: one "ERR" case whose third step quotes at most 200 raw characters. */
  lemma UnparseableIsParseError(raw: string, loads: Loads)
    requires raw != "" && !IsTruthy(ParsedJson(raw, loads))
    ensures ExtractCases(Some(raw), loads) == Cases([ParseErrorCase(raw)])
  {
  }

  /** The parse-error case: id "ERR", three steps, the last quoting at most 200 leading raw characters. */
  lemma ParseErrorCaseShape(raw: string)
    ensures ParseErrorCase(raw).fields["id"] == JStr("ERR")
    ensures ParseErrorCase(raw).fields["title"] == JStr("JSON Parse Error")
    ensures |ParseErrorCase(raw).fields["steps"].items| == 3
    ensures exists snippet ::
      (ParseErrorCase(raw).fields["steps"].items[2] == JStr("Raw output snippet: " + snippet)
       && |snippet| <= 200 && StartsWith(raw, snippet))
  {
    var snippet := Take(raw, 200);
    assert ParseErrorCase(raw).fields["steps"].items[2] == JStr("Raw output snippet: " + snippet);
  }

  /** A decoded dict with no valid case: one "TC001" / "Manual Review Required" case. */
  lemma NoValidCaseIsManualReview(p: Json)
    requires p.JObj? && ValidCases(TestCaseList(p.fields)) == []
    ensures CasesFromParsed(p) == Cases([ManualReviewCase])
    ensures ManualReviewCase.fields["id"] == JStr("TC001")
    ensures ManualReviewCase.fields["title"] == JStr("Manual Review Required")
  {
  }

  /** Every case list extraction returns is non-empty and made of valid cases. */
  lemma ExtractionCasesValid(raw: Option<string>, loads: Loads)
    ensures ExtractCases(raw, loads).Cases? ==>
      ExtractCases(raw, loads).cases != [] && forall j :: j in ExtractCases(raw, loads).cases ==> ValidCase(j)
  {
    if raw.Some? && raw.value != "" {
      var p := ParsedJson(raw.value, loads);
      if IsTruthy(p) && p.value.JObj? {
        ValidCasesMembers(TestCaseList(p.value.fields));
      }
    }
  }

  /** Extraction raises only on a truthy decoded value that is not a dict. */
  lemma ExtractionRaisesOnlyOnNonDict(raw: Option<string>, loads: Loads)
    ensures ExtractCases(raw, loads).Raised? <==>
      raw.Some? && raw.value != "" && IsTruthy(ParsedJson(raw.value, loads)) && !ParsedJson(raw.value, loads).value.JObj?
  {
  }

  /**
   * Fenced output: the agent's JSON wrapped in prose and a fence gives the
   * same cases as the bare JSON would, whenever the wrapped text itself does
   * not decode to a truthy value.
   */
  lemma FencedOutputLikeBare(prose: string, header: string, j: string, tail: string, loads: Loads)
    requires header == "```json\n" || header == "```\n"
    requires '`' !in prose && '`' !in j
    requires |j| >= 2 && j[0] == '{' && j[|j| - 1] == '}'
    requires !IsTruthy(loads(prose + header + j + "\n```" + tail)) && IsTruthy(loads(j))
    ensures ExtractCases(Some(prose + header + j + "\n```" + tail), loads) == ExtractCases(Some(j), loads)
  {
    FencedBlockOfWrapped(prose, header, j, tail);
  }

  /** As written, the same fenced output raises `NameError` instead. */
  lemma AsWrittenFencedRaises(prose: string, header: string, j: string, tail: string, loads: Loads)
    requires header == "```json\n" || header == "```\n"
    requires !IsTruthy(loads(prose + header + j + "\n```" + tail))
    ensures ExtractCasesAsWritten(Some(prose + header + j + "\n```" + tail), loads) == Raised(NameError("re"))
    ensures Message(NameError("re")) == "name 're' is not defined"
  {
  }

  /** As written and as intended agree exactly when the direct decode is truthy (or there is no output). */
  lemma AsWrittenAgreesOnDirect(raw: Option<string>, loads: Loads)
    requires raw.None? || raw.value == "" || IsTruthy(loads(raw.value))
    ensures ExtractCasesAsWritten(raw, loads) == ExtractCases(raw, loads)
  {
  }
}
