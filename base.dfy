/**
 * Shared vocabulary: an Option type and the handful of Python `str`
 * operations the tool relies on (`lower`, `strip`, `split`, `join`,
 * `in`, `count`, `replace`, slicing with clamped bounds).
 *
 * Character classes follow Python 3: `IsSpace` is `str.isspace` (and
 * therefore also the `\s` class of `re` on `str` patterns).
 * `Lower` and `IsAlnum` cover ASCII only.
 */
module Base {

  datatype Option<T> = None | Some(value: T)

  // ---------------------------------------------------------------------------
  // Characters

  /** `str.isspace` for one character (also `\s` in `re`). */
  predicate IsSpace(c: char) {
    var n := c as int;
    (0x09 <= n <= 0x0D) || (0x1C <= n <= 0x20) || n == 0x85 || n == 0xA0 ||
    n == 0x1680 || (0x2000 <= n <= 0x200A) || n == 0x2028 || n == 0x2029 ||
    n == 0x202F || n == 0x205F || n == 0x3000
  }

  predicate IsAsciiLetter(c: char) {
    ('a' <= c <= 'z') || ('A' <= c <= 'Z')
  }

  predicate IsDigit(c: char) {
    '0' <= c <= '9'
  }

  /** `str.isalnum` restricted to ASCII. */
  predicate IsAlnum(c: char) {
    IsAsciiLetter(c) || IsDigit(c)
  }

  /** The regex class `[a-zA-Z0-9_]`. */
  predicate IsWordChar(c: char) {
    IsAlnum(c) || c == '_'
  }

  function LowerChar(c: char): (r: char)
    ensures !('A' <= r <= 'Z')
    ensures 'a' <= r <= 'z' <==> IsAsciiLetter(c)
    ensures IsDigit(r) <==> IsDigit(c)
    ensures r == c <==> !('A' <= c <= 'Z')
  {
    if 'A' <= c <= 'Z' then (c as int + 32) as char else c
  }

  // ---------------------------------------------------------------------------
  // Whole-string operations

  /** `s.lower()`, ASCII letters only. */
  function Lower(s: string): (r: string)
    ensures |r| == |s|
    ensures forall i :: 0 <= i < |s| ==> r[i] == LowerChar(s[i])
  {
    if s == [] then [] else [LowerChar(s[0])] + Lower(s[1..])
  }

  lemma {:induction false} LowerAppend(a: string, b: string)
    ensures Lower(a + b) == Lower(a) + Lower(b)
    decreases |a|
  {
    if a == [] {
      assert a + b == b;
    } else {
      assert (a + b)[1..] == a[1..] + b;
      LowerAppend(a[1..], b);
    }
  }

  // ---------------------------------------------------------------------------
  // Prefixes, infixes and trimming

  /** `s.startswith(p)`. */
  predicate StartsWith(s: string, p: string) {
    |p| <= |s| && s[..|p|] == p
  }

  /** Python's `p in s` on strings (true when p is empty). */
  predicate Contains(s: string, p: string)
    decreases |s|
  {
    StartsWith(s, p) || (|s| > 0 && Contains(s[1..], p))
  }

  /** `p` occurs in `s` at offset `i`. */
  predicate OccursAt(s: string, p: string, i: int) {
    0 <= i <= |s| - |p| && s[i..i + |p|] == p
  }

  /** `any(kw in text for kw in kws)`. */
  predicate AnyIn(text: string, kws: seq<string>) {
    exists k :: 0 <= k < |kws| && Contains(text, kws[k])
  }

  /** `Contains` means an occurrence at some offset, and conversely. */
  lemma {:induction false} ContainsIff(s: string, p: string)
    ensures Contains(s, p) <==> exists i :: OccursAt(s, p, i)
    decreases |s|
  {
    if StartsWith(s, p) {
      assert OccursAt(s, p, 0);
    } else if |s| == 0 {
    } else {
      ContainsIff(s[1..], p);
      if Contains(s[1..], p) {
        var i :| OccursAt(s[1..], p, i);
        assert s[i + 1..i + 1 + |p|] == s[1..][i..i + |p|];
        assert OccursAt(s, p, i + 1);
      }
      if exists i :: OccursAt(s, p, i) {
        var i :| OccursAt(s, p, i);
        assert i != 0;
        assert s[1..][i - 1..i - 1 + |p|] == s[i..i + |p|];
        assert OccursAt(s[1..], p, i - 1);
      }
    }
  }

  lemma ContainsAt(s: string, p: string, i: int)
    requires OccursAt(s, p, i)
    ensures Contains(s, p)
  {
    ContainsIff(s, p);
  }

  /** A string that contains `p` still does after anything is added around it. */
  lemma ContainsInfix(a: string, p: string, b: string)
    ensures Contains(a + p + b, p)
  {
    assert (a + p + b)[|a|..|a| + |p|] == p;
    ContainsAt(a + p + b, p, |a|);
  }

  /** A string without the first character of `p` does not contain `p`. */
  lemma {:induction false} NotContainsChar(s: string, p: string)
    requires |p| > 0 && p[0] !in s
    ensures !Contains(s, p)
    decreases |s|
  {
    if |s| > 0 {
      assert s[0] != p[0];
      assert p[0] !in s[1..];
      NotContainsChar(s[1..], p);
    }
  }

  /** Leading whitespace removed. */
  function TrimLeft(s: string): string {
    if s != [] && IsSpace(s[0]) then TrimLeft(s[1..]) else s
  }

  /** Trailing whitespace removed. */
  function TrimRight(s: string): string {
    if s != [] && IsSpace(s[|s| - 1]) then TrimRight(s[..|s| - 1]) else s
  }

  /** `TrimLeft` keeps a suffix that does not start with whitespace. */
  lemma {:induction false} TrimLeftSuffix(s: string)
    ensures |TrimLeft(s)| <= |s| && TrimLeft(s) == s[|s| - |TrimLeft(s)|..]
    ensures TrimLeft(s) == [] || !IsSpace(TrimLeft(s)[0])
  {
    if s != [] && IsSpace(s[0]) {
      TrimLeftSuffix(s[1..]);
    }
  }

  /** `TrimRight` keeps a prefix that does not end with whitespace. */
  lemma {:induction false} TrimRightPrefix(s: string)
    ensures |TrimRight(s)| <= |s| && TrimRight(s) == s[..|TrimRight(s)|]
    ensures TrimRight(s) == [] || !IsSpace(TrimRight(s)[|TrimRight(s)| - 1])
  {
    if s != [] && IsSpace(s[|s| - 1]) {
      TrimRightPrefix(s[..|s| - 1]);
    }
  }

  /** `s.strip()`. */
  function Strip(s: string): string {
    TrimRight(TrimLeft(s))
  }

  /** `s.rstrip(c)` for a single character. */
  function RStripChar(s: string, c: char): (r: string)
    ensures |r| <= |s| && r == s[..|r|]
    ensures r == [] || r[|r| - 1] != c
  {
    if s != [] && s[|s| - 1] == c then RStripChar(s[..|s| - 1], c) else s
  }

  /** A slice grown by one element. */
  lemma SliceSnoc<T>(xs: seq<T>, a: nat, b: nat)
    requires a <= b < |xs|
    ensures xs[a..b + 1] == xs[a..b] + [xs[b]]
  {
  }

  /** `s.count(c)` for a single character. */
  function Count(s: string, c: char): nat {
    if s == [] then 0 else (if s[0] == c then 1 else 0) + Count(s[1..], c)
  }

  lemma CountAppend(a: string, b: string, c: char)
    ensures Count(a + b, c) == Count(a, c) + Count(b, c)
  {
    if a == [] {
      assert a + b == b;
    } else {
      assert (a + b)[1..] == a[1..] + b;
      CountAppend(a[1..], b, c);
    }
  }

  /** `t * n` in Python: n copies of t, nothing when n is not positive. */
  function Repeat(t: string, n: int): (r: string)
    ensures |r| == if n <= 0 then 0 else n * |t|
    decreases n
  {
    if n <= 0 then "" else t + Repeat(t, n - 1)
  }

  lemma CountRepeat(t: string, n: int, c: char)
    ensures Count(Repeat(t, n), c) == if n <= 0 then 0 else n * Count(t, c)
    decreases n
  {
    if n > 0 {
      CountAppend(t, Repeat(t, n - 1), c);
      CountRepeat(t, n - 1, c);
    }
  }

  /** `s.replace(c, t)` for a single character c. */
  function ReplaceChar(s: string, c: char, t: string): (r: string)
    ensures t == [] ==> c !in r
    ensures |t| == 1 && t[0] != c ==> |r| == |s| && c !in r
    ensures forall d :: d in r ==> (d in s && d != c) || d in t
  {
    if s == [] then "" else (if s[0] == c then t else [s[0]]) + ReplaceChar(s[1..], c, t)
  }

  /** Python prefix slice `s[:n]` for n >= 0. */
  function Take(s: string, n: nat): (r: string)
    ensures |r| == if n < |s| then n else |s|
    ensures r == s[..|r|]
  {
    if n < |s| then s[..n] else s
  }

  /** Python suffix slice `s[-n:]` for n > 0. */
  function TakeLast(s: string, n: nat): (r: string)
    ensures |r| == if n < |s| then n else |s|
    ensures r == s[|s| - |r|..]
  {
    if n < |s| then s[|s| - n..] else s
  }

  // ---------------------------------------------------------------------------
  // split / join

  /** `s.split(c)` for a single-character separator: always at least one part. */
  function Split(s: string, c: char): (r: seq<string>)
    ensures |r| >= 1
    ensures forall k :: 0 <= k < |r| ==> c !in r[k]
    decreases |s|
  {
    if s == [] then [""]
    else if s[0] == c then [""] + Split(s[1..], c)
    else
      var t := Split(s[1..], c);
      [[s[0]] + t[0]] + t[1..]
  }

  /** `sep.join(parts)` for a single-character separator. */
  function Join(parts: seq<string>, c: char): string
    decreases |parts|
  {
    if parts == [] then ""
    else if |parts| == 1 then parts[0]
    else parts[0] + [c] + Join(parts[1..], c)
  }

  /** Splitting on c and joining with c gives the string back. */
  lemma {:induction false} JoinSplit(s: string, c: char)
    ensures Join(Split(s, c), c) == s
    decreases |s|
  {
    if s == [] {
    } else if s[0] == c {
      JoinSplit(s[1..], c);
      assert Split(s, c) == [""] + Split(s[1..], c);
      assert s == [c] + s[1..];
    } else {
      JoinSplit(s[1..], c);
      var t := Split(s[1..], c);
      var r := Split(s, c);
      assert r == [[s[0]] + t[0]] + t[1..];
      assert r[0] == [s[0]] + t[0] && r[1..] == t[1..];
      if |t| == 1 {
        assert Join(r, c) == [s[0]] + Join(t, c);
      } else {
        assert Join(t, c) == t[0] + [c] + Join(t[1..], c);
        assert Join(r, c) == r[0] + [c] + Join(r[1..], c);
        assert Join(r, c) == [s[0]] + Join(t, c);
      }
      assert s == [s[0]] + s[1..];
    }
  }

  /** A string with the separator in it splits into at least two parts. */
  lemma {:induction false} SplitHasTwo(s: string, c: char)
    requires c in s
    ensures |Split(s, c)| >= 2
    decreases |s|
  {
    if s[0] != c {
      assert c in s[1..];
      SplitHasTwo(s[1..], c);
    }
  }

  /** A string without the separator is its own single part. */
  lemma {:induction false} SplitNone(s: string, c: char)
    requires c !in s
    ensures Split(s, c) == [s]
    decreases |s|
  {
    if s != [] {
      assert c !in s[1..];
      SplitNone(s[1..], c);
      assert s == [s[0]] + s[1..];
    }
  }

  /** The first part of a split is the text up to the first separator (or the end). */
  lemma {:induction false} SplitFirst(s: string, c: char) returns (rest: string)
    ensures s == Split(s, c)[0] + rest && (rest == [] || rest[0] == c)
    decreases |s|
  {
    if s == [] {
      rest := [];
    } else if s[0] == c {
      rest := s;
    } else {
      var t := Split(s[1..], c);
      assert Split(s, c)[0] == [s[0]] + t[0];
      rest := SplitFirst(s[1..], c);
      assert s == [s[0]] + s[1..];
    }
  }

  /** The second part of a split is the text between the first and the next separator. */
  lemma {:induction false} SplitSecond(s: string, c: char) returns (a: string, rest: string)
    requires c in s
    ensures |Split(s, c)| >= 2
    ensures s == a + [c] + Split(s, c)[1] + rest && c !in a && (rest == [] || rest[0] == c)
    decreases |s|
  {
    SplitHasTwo(s, c);
    var t := Split(s[1..], c);
    if s[0] == c {
      assert Split(s, c) == [""] + t;
      assert Split(s, c)[1] == t[0];
      rest := SplitFirst(s[1..], c);
      a := [];
      assert s == [s[0]] + s[1..];
    } else {
      assert Split(s, c) == [[s[0]] + t[0]] + t[1..];
      assert c in s[1..];
      var a1;
      a1, rest := SplitSecond(s[1..], c);
      assert Split(s, c)[1] == t[1];
      a := [s[0]] + a1;
      assert s == [s[0]] + s[1..];
    }
  }

  /** Replacing a character that does not occur changes nothing. */
  lemma {:induction false} ReplaceCharAbsent(s: string, c: char, t: string)
    requires c !in s
    ensures ReplaceChar(s, c, t) == s
    decreases |s|
  {
    if s != [] {
      assert c !in s[1..];
      ReplaceCharAbsent(s[1..], c, t);
      assert s == [s[0]] + s[1..];
    }
  }

  /** Lowering text without upper-case letters changes nothing. */
  lemma LowerNoUpper(s: string)
    requires forall k :: 0 <= k < |s| ==> !('A' <= s[k] <= 'Z')
    ensures Lower(s) == s
  {
  }

  // ---------------------------------------------------------------------------
  // Decimal numerals

  function DigitChar(d: nat): (r: char)
    requires d < 10
    ensures IsDigit(r) && r as int - '0' as int == d
  {
    ('0' as int + d) as char
  }

  /** `str(n)` for a natural number. */
  function NatStr(n: nat): (r: string)
    ensures |r| >= 1 && forall k :: 0 <= k < |r| ==> IsDigit(r[k])
    ensures n >= 10 ==> r[0] != '0'
    decreases n
  {
    if n < 10 then [DigitChar(n)] else NatStr(n / 10) + [DigitChar(n % 10)]
  }

  predicate AllDigits(s: string) {
    forall k :: 0 <= k < |s| ==> IsDigit(s[k])
  }

  /** `int(s)` for a string of decimal digits (the empty string read as 0). */
  function DigitsValue(s: string): nat
    requires AllDigits(s)
  {
    if s == [] then 0 else DigitsValue(s[..|s| - 1]) * 10 + (s[|s| - 1] as int - '0' as int)
  }

  /** Reading back a rendered number gives the number. */
  lemma {:induction false} NatStrValue(n: nat)
    ensures DigitsValue(NatStr(n)) == n
    decreases n
  {
    if n >= 10 {
      NatStrValue(n / 10);
      var r := NatStr(n);
      assert r[..|r| - 1] == NatStr(n / 10);
    }
  }

  /** `os.getenv(k)`, the environment given as a map. */
  function GetEnv(env: map<string, string>, k: string): (r: Option<string>)
    ensures r.Some? <==> k in env
    ensures r.Some? ==> r.value == env[k]
  {
    if k in env then Some(env[k]) else None
  }
}
