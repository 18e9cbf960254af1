/**
 * scripts/verify_credential_isolation.py: a static check that no argument
 * of a call into the language model mentions a credential.  Python's `ast`
 * is replaced by a small syntax tree `Node` holding the node kinds the check
 * distinguishes; every other node is `Other` with its children in field
 * order, which is the order `generic_visit` walks them in.
 *
 * The parser's output for a call includes its line and its unparsed text;
 * reading and parsing a file is the `Source` it yields.
 */
module Isolation {
  import opened Base

  datatype Op = Add | OtherOp

  datatype Node =
    | Name(id: string)
    | Attribute(value: Node, attr: string)
    /** An f-string: its parts are `Constant`s and `FormattedValue`s. */
    | JoinedStr(values: seq<Node>)
    | FormattedValue(value: Node)
    | BinOp(left: Node, op: Op, right: Node)
    /** A call, with the line it starts on and its text as `ast.unparse` renders it. */
    | Call(func: Node, args: seq<Node>, keywords: seq<Keyword>, lineno: nat, code: string)
    | Constant(text: string)
    /** A `def`: its name, then its children (arguments, body, decorators, returns) in field order. */
    | FunctionDef(name: string, children: seq<Node>)
    | AsyncFunctionDef(name: string, children: seq<Node>)
    | Other(children: seq<Node>)

  /** A keyword argument; `arg` is None for `**kwargs`. */
  datatype Keyword = Keyword(arg: Option<string>, value: Node)

  // ---------------------------------------------------------------------------
  // `_contains_credentials` (lines 84-126)

  const SuspiciousNames: seq<string> := ["username", "password", "credentials", "secret", "passwd", "pwd", "secrets_manager"]
  const SuspiciousAttrs: seq<string> := ["username", "password", "secret"]

  function Flagged(n: Node): bool
    decreases n, 1
  {
    match n
    case Name(id) => AnyIn(Lower(id), SuspiciousNames)
    case Attribute(v, attr) => Flagged(v) || AnyIn(Lower(attr), SuspiciousAttrs)
    case JoinedStr(values) => FormattedFlagged(values)
    case BinOp(l, op, r) => op == Add && (Flagged(l) || Flagged(r))
    case Call(func, args, _, _, _) => func.Attribute? && func.attr == "format" && AnyFlagged(args)
    case _ => false
  }

  /** Some formatted part of the f-string is flagged; literal parts are ignored. */
  function FormattedFlagged(values: seq<Node>): bool
    decreases values, 0
  {
    if values == [] then false
    else PartFlagged(values[0]) || FormattedFlagged(values[1..])
  }

  /** A part of an f-string: only a `FormattedValue` is looked into. */
  function PartFlagged(v: Node): bool
    decreases v, 2
  {
    v.FormattedValue? && Flagged(v.value)
  }

  function AnyFlagged(args: seq<Node>): bool
    decreases args, 0
  {
    if args == [] then false else Flagged(args[0]) || AnyFlagged(args[1..])
  }

  /** An identifier the check looks at: a variable name or an attribute name. */
  datatype Ident = VarName(name: string) | AttrName(name: string)

  predicate SuspiciousIdent(x: Ident) {
    match x
    case VarName(s) => AnyIn(Lower(s), SuspiciousNames)
    case AttrName(s) => AnyIn(Lower(s), SuspiciousAttrs)
  }

  /**
   * The identifiers through which a credential can reach the value: names
   * and attribute names, looking through attribute bases, the formatted parts
   * of f-strings, both sides of `+` and the positional arguments of
   * `.format()` calls, and nowhere else. It is the inventory of what the
   * check inspects, kept as a set, so that `FlaggedIff` can state the check
   * as a test on each inspected identifier.
   */
  function Exposed(n: Node): set<Ident>
    decreases n, 1
  {
    match n
    case Name(id) => {VarName(id)}
    case Attribute(v, attr) => Exposed(v) + {AttrName(attr)}
    case JoinedStr(values) => ExposedFormatted(values)
    case BinOp(l, op, r) => if op == Add then Exposed(l) + Exposed(r) else {}
    case Call(func, args, _, _, _) => if func.Attribute? && func.attr == "format" then ExposedAll(args) else {}
    case _ => {}
  }

  function ExposedFormatted(values: seq<Node>): set<Ident>
    decreases values, 0
  {
    if values == [] then {}
    else ExposedPart(values[0]) + ExposedFormatted(values[1..])
  }

  function ExposedPart(v: Node): set<Ident>
    decreases v, 2
  {
    if v.FormattedValue? then Exposed(v.value) else {}
  }

  function ExposedAll(args: seq<Node>): set<Ident>
    decreases args, 0
  {
    if args == [] then {} else Exposed(args[0]) + ExposedAll(args[1..])
  }

  /** A value is flagged exactly when a suspicious identifier is exposed in it. */
  lemma {:induction false} FlaggedIff(n: Node)
    ensures Flagged(n) <==> exists x :: x in Exposed(n) && SuspiciousIdent(x)
    decreases n, 1
  {
    match n
    case Name(id) =>
      assert VarName(id) in Exposed(n);
    case Attribute(v, attr) =>
      FlaggedIff(v);
      assert AttrName(attr) in Exposed(n);
    case JoinedStr(values) =>
      FormattedFlaggedIff(values);
    case BinOp(l, op, r) =>
      FlaggedIff(l);
      FlaggedIff(r);
    case Call(func, args, _, _, _) =>
      AnyFlaggedIff(args);
    case _ =>
  }

  lemma {:induction false} FormattedFlaggedIff(values: seq<Node>)
    ensures FormattedFlagged(values) <==> exists x :: x in ExposedFormatted(values) && SuspiciousIdent(x)
    decreases values, 0
  {
    if values != [] {
      PartFlaggedIff(values[0]);
      FormattedFlaggedIff(values[1..]);
    }
  }

  lemma {:induction false} PartFlaggedIff(v: Node)
    ensures PartFlagged(v) <==> exists x :: x in ExposedPart(v) && SuspiciousIdent(x)
    decreases v, 2
  {
    if v.FormattedValue? {
      FlaggedIff(v.value);
    }
  }

  lemma {:induction false} AnyFlaggedIff(args: seq<Node>)
    ensures AnyFlagged(args) <==> exists x :: x in ExposedAll(args) && SuspiciousIdent(x)
    decreases args, 0
  {
    if args != [] {
      FlaggedIff(args[0]);
      AnyFlaggedIff(args[1..]);
    }
  }

  /** Literal text of an f-string is never looked at: dropping or changing it does not change the verdict. */
  lemma {:induction false} LiteralPartsIgnored(values: seq<Node>, text: string)
    ensures FormattedFlagged([Constant(text)] + values) == FormattedFlagged(values)
    ensures !FormattedFlagged([Constant(text)])
  {
    assert ([Constant(text)] + values)[1..] == values;
    assert [Constant(text)][1..] == [];
  }

  // ---------------------------------------------------------------------------
  // Which calls go to the model (lines 44-57)

  const LlmMethods: seq<string> := ["generate", "run", "invoke", "chat", "complete"]
  const LlmFunctions: seq<string> := ["generate_text", "call_llm", "invoke_agent"]

  /** `s in names`, one name after another. */
  predicate NameIn(s: string, names: seq<string>) {
    names != [] && (s == names[0] || NameIn(s, names[1..]))
  }

  lemma {:induction false} NameInIff(s: string, names: seq<string>)
    ensures NameIn(s, names) <==> s in names
  {
    if names != [] {
      NameInIff(s, names[1..]);
      assert names == [names[0]] + names[1..];
    }
  }

  predicate IsLlmCall(func: Node) {
    (func.Attribute? && NameIn(func.attr, LlmMethods)) || (func.Name? && NameIn(func.id, LlmFunctions))
  }

  /** Calling any of the listed methods, on any receiver, is a call to the model. */
  lemma LlmMethodCall(receiver: Node, k: int)
    requires 0 <= k < |LlmMethods|
    ensures IsLlmCall(Attribute(receiver, LlmMethods[k]))
  {
    NameInIff(LlmMethods[k], LlmMethods);
  }

  // ---------------------------------------------------------------------------
  // The visit (lines 21-82)

  datatype Violation = Violation(file: string, fn: string, line: nat, issue: string, code: string)

  /** `self.current_function or '<module>'`. */
  function FunctionLabel(current: Option<string>): string {
    if current.Some? && current.value != "" then current.value else "<module>"
  }

  /** `f'Credentials in keyword argument: {keyword.arg}'`; `**kwargs` prints as None. */
  function KeywordIssue(arg: Option<string>): string {
    "Credentials in keyword argument: " + (if arg.Some? then arg.value else "None")
  }

  const ArgIssue := "Credentials passed to LLM call"

  /** The violations one call adds itself: one per flagged positional argument, then one per flagged keyword. */
  function ArgViolations(file: string, where: string, line: nat, code: string, args: seq<Node>): seq<Violation> {
    if args == [] then []
    else
      (if Flagged(args[0]) then [Violation(file, where, line, ArgIssue, code)] else [])
      + ArgViolations(file, where, line, code, args[1..])
  }

  function KeywordViolations(file: string, where: string, line: nat, code: string, kws: seq<Keyword>): seq<Violation> {
    if kws == [] then []
    else
      (if Flagged(kws[0].value) then [Violation(file, where, line, KeywordIssue(kws[0].arg), code)] else [])
      + KeywordViolations(file, where, line, code, kws[1..])
  }

  /** The number of flagged positional arguments and flagged keyword values. */
  function FlaggedArgs(args: seq<Node>): nat {
    if args == [] then 0 else (if Flagged(args[0]) then 1 else 0) + FlaggedArgs(args[1..])
  }

  function FlaggedKeywords(kws: seq<Keyword>): nat {
    if kws == [] then 0 else (if Flagged(kws[0].value) then 1 else 0) + FlaggedKeywords(kws[1..])
  }

  /** Everything the visit of n appends, in order, when the current function is `current`. */
  function Violations(file: string, n: Node, current: Option<string>): seq<Violation>
    decreases n, 1
  {
    match n
    case FunctionDef(name, children) => AllViolations(file, children, Some(name))
    case Call(_, _, _, _, _) => CallOwnViolations(file, n, current) + CallChildViolations(file, n, current)
    case Name(_) => []
    case Constant(_) => []
    case Attribute(v, _) => Violations(file, v, current)
    case FormattedValue(v) => Violations(file, v, current)
    case BinOp(l, _, r) => Violations(file, l, current) + Violations(file, r, current)
    case JoinedStr(values) => AllViolations(file, values, current)
    case AsyncFunctionDef(_, children) => AllViolations(file, children, current)
    case Other(children) => AllViolations(file, children, current)
  }

  /** What `visit_Call` reports about the call itself, before visiting its children. */
  function CallOwnViolations(file: string, n: Node, current: Option<string>): seq<Violation>
    requires n.Call?
  {
    if IsLlmCall(n.func) then
      ArgViolations(file, FunctionLabel(current), n.lineno, n.code, n.args)
      + KeywordViolations(file, FunctionLabel(current), n.lineno, n.code, n.keywords)
    else []
  }

  /** The generic visit of a call: the callee, the positional arguments, then the keywords. */
  function CallChildViolations(file: string, n: Node, current: Option<string>): seq<Violation>
    requires n.Call?
    decreases n, 0
  {
    Violations(file, n.func, current) + AllViolations(file, n.args, current)
    + KeywordsViolations(file, n.keywords, current)
  }

  function AllViolations(file: string, ns: seq<Node>, current: Option<string>): seq<Violation>
    decreases ns, 0
  {
    if ns == [] then [] else Violations(file, ns[0], current) + AllViolations(file, ns[1..], current)
  }

  function KeywordsViolations(file: string, kws: seq<Keyword>, current: Option<string>): seq<Violation>
    decreases kws, 0
  {
    if kws == [] then []
    else KeywordVisitViolations(file, kws[0], current) + KeywordsViolations(file, kws[1..], current)
  }

  /** Visiting a `keyword` node visits its value. */
  function KeywordVisitViolations(file: string, kw: Keyword, current: Option<string>): seq<Violation>
    decreases kw, 2
  {
    Violations(file, kw.value, current)
  }

  /** A call adds one violation of its own per flagged argument when it goes to the model, and none otherwise. */
  lemma {:induction false} ArgViolationsCount(file: string, where: string, line: nat, code: string, args: seq<Node>)
    ensures |ArgViolations(file, where, line, code, args)| == FlaggedArgs(args)
    ensures forall v :: v in ArgViolations(file, where, line, code, args) ==>
      v == Violation(file, where, line, ArgIssue, code)
    ensures FlaggedArgs(args) > 0 <==> AnyFlagged(args)
  {
    if args != [] {
      ArgViolationsCount(file, where, line, code, args[1..]);
    }
  }

  lemma {:induction false} KeywordViolationsCount(file: string, where: string, line: nat, code: string, kws: seq<Keyword>)
    ensures |KeywordViolations(file, where, line, code, kws)| == FlaggedKeywords(kws)
    ensures forall v :: v in KeywordViolations(file, where, line, code, kws) ==>
      v.file == file && v.fn == where && v.line == line && v.code == code
  {
    if kws != [] {
      KeywordViolationsCount(file, where, line, code, kws[1..]);
    }
  }

  /** The labels of the `def`s inside n. */
  function DefNames(n: Node): set<string>
    decreases n, 1
  {
    match n
    case FunctionDef(name, children) => {FunctionLabel(Some(name))} + AllDefNames(children)
    case Call(func, args, kws, _, _) => DefNames(func) + AllDefNames(args) + KeywordDefNames(kws)
    case Attribute(v, _) => DefNames(v)
    case FormattedValue(v) => DefNames(v)
    case BinOp(l, _, r) => DefNames(l) + DefNames(r)
    case JoinedStr(values) => AllDefNames(values)
    case AsyncFunctionDef(_, children) => AllDefNames(children)
    case Other(children) => AllDefNames(children)
    case _ => {}
  }

  function AllDefNames(ns: seq<Node>): set<string>
    decreases ns, 0
  {
    if ns == [] then {} else DefNames(ns[0]) + AllDefNames(ns[1..])
  }

  function KeywordDefNames(kws: seq<Keyword>): set<string>
    decreases kws, 0
  {
    if kws == [] then {} else KeywordDefs(kws[0]) + KeywordDefNames(kws[1..])
  }

  function KeywordDefs(kw: Keyword): set<string>
    decreases kw, 2
  {
    DefNames(kw.value)
  }

  /**
   * Every violation names the file and, as its function, either the function
   * the visit started in (or `<module>`) or, when it lies inside a nested
   * `def`, a function defined there.
   */
  lemma {:induction false} ViolationsLabelled(file: string, n: Node, current: Option<string>)
    ensures forall v :: v in Violations(file, n, current) ==>
      v.file == file && (v.fn == FunctionLabel(current) || v.fn in DefNames(n))
    decreases n, 1
  {
    match n
    case FunctionDef(name, children) =>
      AllViolationsLabelled(file, children, Some(name));
    case Call(func, args, kws, line, _) =>
      ArgViolationsCount(file, FunctionLabel(current), line, n.code, args);
      KeywordViolationsCount(file, FunctionLabel(current), line, n.code, kws);
      ViolationsLabelled(file, func, current);
      AllViolationsLabelled(file, args, current);
      KeywordsViolationsLabelled(file, kws, current);
    case Attribute(v, _) => ViolationsLabelled(file, v, current);
    case FormattedValue(v) => ViolationsLabelled(file, v, current);
    case BinOp(l, _, r) =>
      ViolationsLabelled(file, l, current);
      ViolationsLabelled(file, r, current);
    case JoinedStr(values) => AllViolationsLabelled(file, values, current);
    case AsyncFunctionDef(_, children) => AllViolationsLabelled(file, children, current);
    case Other(children) => AllViolationsLabelled(file, children, current);
    case Name(_) =>
    case Constant(_) =>
  }

  lemma {:induction false} AllViolationsLabelled(file: string, ns: seq<Node>, current: Option<string>)
    ensures forall v :: v in AllViolations(file, ns, current) ==>
      v.file == file && (v.fn == FunctionLabel(current) || v.fn in AllDefNames(ns))
    decreases ns, 0
  {
    if ns != [] {
      ViolationsLabelled(file, ns[0], current);
      AllViolationsLabelled(file, ns[1..], current);
    }
  }

  lemma {:induction false} KeywordsViolationsLabelled(file: string, kws: seq<Keyword>, current: Option<string>)
    ensures forall v :: v in KeywordsViolations(file, kws, current) ==>
      v.file == file && (v.fn == FunctionLabel(current) || v.fn in KeywordDefNames(kws))
    decreases kws, 0
  {
    if kws != [] {
      KeywordLabelled(file, kws[0], current);
      KeywordsViolationsLabelled(file, kws[1..], current);
    }
  }

  lemma {:induction false} KeywordLabelled(file: string, kw: Keyword, current: Option<string>)
    ensures forall v :: v in KeywordVisitViolations(file, kw, current) ==>
      v.file == file && (v.fn == FunctionLabel(current) || v.fn in KeywordDefs(kw))
    decreases kw, 2
  {
    ViolationsLabelled(file, kw.value, current);
  }

  /**
   * Only `def` is tracked (there is no `visit_AsyncFunctionDef`): with no
   * nested `def`, every violation in the body of a `def` names that function,
   * while every violation in the body of an `async def` names the enclosing one.
   */
  lemma AsyncDefKeepsOuterLabel(file: string, name: string, body: seq<Node>, current: Option<string>)
    requires AllDefNames(body) == {}
    ensures forall v :: v in Violations(file, FunctionDef(name, body), current) ==> v.fn == FunctionLabel(Some(name))
    ensures forall v :: v in Violations(file, AsyncFunctionDef(name, body), current) ==> v.fn == FunctionLabel(current)
  {
    AllViolationsLabelled(file, body, Some(name));
    AllViolationsLabelled(file, body, current);
  }

  /** Each suspicious name, written in lower case, is flagged as a variable. */
  lemma SuspiciousNameFlagged(id: string, k: int)
    requires 0 <= k < |SuspiciousNames| && id == SuspiciousNames[k]
    requires forall i :: 0 <= i < |id| ==> 'a' <= id[i] <= 'z' || id[i] == '_'
    ensures Flagged(Name(id))
  {
    LowerNoUpper(id);
    assert StartsWith(id, id);
  }

  /** A name none of whose letters starts a suspicious name is not flagged. */
  lemma InnocentName(id: string)
    requires forall i :: 0 <= i < |id| ==> LowerChar(id[i]) !in "upcs"
    ensures !Flagged(Name(id))
  {
    forall k | 0 <= k < |SuspiciousNames| ensures !Contains(Lower(id), SuspiciousNames[k]) {
      assert SuspiciousNames[k][0] in "upcs";
      NotContainsChar(Lower(id), SuspiciousNames[k]);
    }
  }

  /** `f"<text>{x}"` is flagged exactly when x is, and its visit is the visit of x. */
  lemma FStringOf(file: string, text: string, x: Node, current: Option<string>)
    ensures Flagged(JoinedStr([Constant(text), FormattedValue(x)])) == Flagged(x)
    ensures Violations(file, JoinedStr([Constant(text), FormattedValue(x)]), current) == Violations(file, x, current)
  {
    var tail := [FormattedValue(x)];
    var parts := [Constant(text)] + tail;
    assert parts == [Constant(text), FormattedValue(x)];
    assert parts[1..] == tail && tail[1..] == [];
    assert FormattedFlagged(tail) == Flagged(x);
    LiteralPartsIgnored(tail, text);
    assert AllViolations(file, tail, current) == Violations(file, x, current);
    assert AllViolations(file, parts, current) == AllViolations(file, tail, current);
  }

  /** A model call with one flagged positional argument and nothing else to report is one violation. */
  lemma OneArgumentCall(file: string, func: Node, a: Node, line: nat, code: string, current: Option<string>)
    requires IsLlmCall(func) && Flagged(a)
    requires Violations(file, func, current) == [] && Violations(file, a, current) == []
    ensures Violations(file, Call(func, [a], [], line, code), current) == [Violation(file, FunctionLabel(current), line, ArgIssue, code)]
  {
    assert [a][1..] == [];
    assert AllViolations(file, [a], current) == [];
    assert ArgViolations(file, FunctionLabel(current), line, code, [a]) == [Violation(file, FunctionLabel(current), line, ArgIssue, code)];
    var n := Call(func, [a], [], line, code);
    assert CallOwnViolations(file, n, current) == [Violation(file, FunctionLabel(current), line, ArgIssue, code)];
    assert CallChildViolations(file, n, current) == [];
  }

  /** A model call with one flagged keyword and nothing else to report is one violation naming the keyword. */
  lemma OneKeywordCall(file: string, func: Node, kw: Keyword, line: nat, code: string, current: Option<string>)
    requires IsLlmCall(func) && Flagged(kw.value)
    requires Violations(file, func, current) == [] && Violations(file, kw.value, current) == []
    ensures Violations(file, Call(func, [], [kw], line, code), current) == [Violation(file, FunctionLabel(current), line, KeywordIssue(kw.arg), code)]
  {
    assert [kw][1..] == [];
    assert KeywordsViolations(file, [kw], current) == [];
    assert KeywordViolations(file, FunctionLabel(current), line, code, [kw]) == [Violation(file, FunctionLabel(current), line, KeywordIssue(kw.arg), code)];
    var n := Call(func, [], [kw], line, code);
    assert CallOwnViolations(file, n, current) == [Violation(file, FunctionLabel(current), line, KeywordIssue(kw.arg), code)];
    assert CallChildViolations(file, n, current) == [];
  }

  // ---------------------------------------------------------------------------
  // The visitor class

  class CredentialLeakDetector {
    const filepath: string
    var violations: seq<Violation>
    var currentFunction: Option<string>

    constructor(filepath: string)
      ensures this.filepath == filepath
      ensures violations == [] && currentFunction == None
    {
      this.filepath := filepath;
      violations := [];
      currentFunction := None;
    }

    /** `visit`: the node's own method, or `generic_visit`. */
    method Visit(n: Node)
      modifies this
      ensures violations == old(violations) + Violations(filepath, n, old(currentFunction))
      ensures currentFunction == old(currentFunction)
      decreases n, 2
    {
      match n {
        case FunctionDef(_, _) => VisitFunctionDef(n);
        case Call(_, _, _, _, _) => VisitCall(n);
        case _ => GenericVisit(n);
      }
    }

    /** Lines 37-42: the name is current while the children are visited, and the outer one is restored. */
    method VisitFunctionDef(n: Node)
      requires n.FunctionDef?
      modifies this
      ensures violations == old(violations) + Violations(filepath, n, old(currentFunction))
      ensures currentFunction == old(currentFunction)
      decreases n, 1
    {
      var oldFunction := currentFunction;
      currentFunction := Some(n.name);
      VisitAll(n.children);
      currentFunction := oldFunction;
    }

    /** Lines 44-82: an LLM call's flagged arguments and keywords first, then the children. */
    method VisitCall(n: Node)
      requires n.Call?
      modifies this
      ensures violations == old(violations) + Violations(filepath, n, old(currentFunction))
      ensures currentFunction == old(currentFunction)
      decreases n, 1
    {
      ReportCall(n);
      GenericVisit(n);
    }

    /** Lines 46-80: whether the call goes to the model, and if so its flagged arguments and keywords. */
    method ReportCall(n: Node)
      requires n.Call?
      modifies this
      ensures violations == old(violations) + CallOwnViolations(filepath, n, currentFunction)
      ensures currentFunction == old(currentFunction)
    {
      if n.func.Attribute? {
        NameInIff(n.func.attr, LlmMethods);
      }
      if n.func.Name? {
        NameInIff(n.func.id, LlmFunctions);
      }
      var isLlmCall := false;
      if n.func.Attribute? && n.func.attr in LlmMethods {
        isLlmCall := true;
      }
      if n.func.Name? && n.func.id in LlmFunctions {
        isLlmCall := true;
      }
      if isLlmCall {
        var where := FunctionLabel(currentFunction);
        ReportArgs(where, n.lineno, n.code, n.args);
        ReportKeywords(where, n.lineno, n.code, n.keywords);
      }
    }

    /** Lines 61-69: one violation per flagged positional argument. */
    method ReportArgs(where: string, line: nat, code: string, args: seq<Node>)
      modifies this
      ensures violations == old(violations) + ArgViolations(filepath, where, line, code, args)
      ensures currentFunction == old(currentFunction)
    {
      ghost var before := violations;
      for k := 0 to |args|
        invariant violations == before + ArgViolations(filepath, where, line, code, args[..k])
        invariant currentFunction == old(currentFunction)
      {
        ArgViolationsSnoc(filepath, where, line, code, args[..k], args[k]);
        assert args[..k + 1] == args[..k] + [args[k]];
        if Flagged(args[k]) {
          violations := violations + [Violation(filepath, where, line, ArgIssue, code)];
        }
      }
      assert args[..|args|] == args;
    }

    /** Lines 72-80: one violation per flagged keyword value. */
    method ReportKeywords(where: string, line: nat, code: string, kws: seq<Keyword>)
      modifies this
      ensures violations == old(violations) + KeywordViolations(filepath, where, line, code, kws)
      ensures currentFunction == old(currentFunction)
    {
      ghost var before := violations;
      for k := 0 to |kws|
        invariant violations == before + KeywordViolations(filepath, where, line, code, kws[..k])
        invariant currentFunction == old(currentFunction)
      {
        KeywordViolationsSnoc(filepath, where, line, code, kws[..k], kws[k]);
        assert kws[..k + 1] == kws[..k] + [kws[k]];
        if Flagged(kws[k].value) {
          violations := violations + [Violation(filepath, where, line, KeywordIssue(kws[k].arg), code)];
        }
      }
      assert kws[..|kws|] == kws;
    }

    /** `generic_visit`: every child in field order (for a `def`, without making it current). */
    method GenericVisit(n: Node)
      modifies this
      ensures currentFunction == old(currentFunction)
      ensures n.FunctionDef? ==> violations == old(violations) + AllViolations(filepath, n.children, old(currentFunction))
      ensures n.Call? ==> violations == old(violations) + CallChildViolations(filepath, n, old(currentFunction))
      ensures !n.FunctionDef? && !n.Call? ==> violations == old(violations) + Violations(filepath, n, old(currentFunction))
      decreases n, 0
    {
      match n {
        case FunctionDef(_, children) => VisitAll(children);
        case Call(func, args, kws, _, _) =>
          Visit(func);
          VisitAll(args);
          VisitKeywords(kws);
        case Name(_) =>
        case Constant(_) =>
        case Attribute(v, _) => Visit(v);
        case FormattedValue(v) => Visit(v);
        case BinOp(l, _, r) =>
          Visit(l);
          Visit(r);
        case JoinedStr(values) => VisitAll(values);
        case AsyncFunctionDef(_, children) => VisitAll(children);
        case Other(children) => VisitAll(children);
      }
    }

    method VisitAll(ns: seq<Node>)
      modifies this
      ensures violations == old(violations) + AllViolations(filepath, ns, old(currentFunction))
      ensures currentFunction == old(currentFunction)
      decreases ns, 3
    {
      if ns != [] {
        Visit(ns[0]);
        VisitAll(ns[1..]);
      }
    }

    method VisitKeywords(kws: seq<Keyword>)
      modifies this
      ensures violations == old(violations) + KeywordsViolations(filepath, kws, old(currentFunction))
      ensures currentFunction == old(currentFunction)
      decreases kws, 3
    {
      if kws != [] {
        VisitKeyword(kws[0]);
        VisitKeywords(kws[1..]);
      }
    }

    /** `visit` of a `keyword` node: its generic visit reaches the value. */
    method VisitKeyword(kw: Keyword)
      modifies this
      ensures violations == old(violations) + KeywordVisitViolations(filepath, kw, old(currentFunction))
      ensures currentFunction == old(currentFunction)
      decreases kw, 4
    {
      Visit(kw.value);
    }
  }

  lemma ArgViolationsSnoc(file: string, where: string, line: nat, code: string, args: seq<Node>, a: Node)
    ensures ArgViolations(file, where, line, code, args + [a]) ==
      ArgViolations(file, where, line, code, args) + (if Flagged(a) then [Violation(file, where, line, ArgIssue, code)] else [])
    decreases |args|
  {
    if args == [] {
      assert [a][1..] == [];
    } else {
      assert (args + [a])[1..] == args[1..] + [a];
      ArgViolationsSnoc(file, where, line, code, args[1..], a);
    }
  }

  lemma KeywordViolationsSnoc(file: string, where: string, line: nat, code: string, kws: seq<Keyword>, kw: Keyword)
    ensures KeywordViolations(file, where, line, code, kws + [kw]) ==
      KeywordViolations(file, where, line, code, kws) + (if Flagged(kw.value) then [Violation(file, where, line, KeywordIssue(kw.arg), code)] else [])
    decreases |kws|
  {
    if kws == [] {
      assert [kw][1..] == [];
    } else {
      assert (kws + [kw])[1..] == kws[1..] + [kw];
      KeywordViolationsSnoc(file, where, line, code, kws[1..], kw);
    }
  }

  // ---------------------------------------------------------------------------
  // analyze_file and main (lines 128-213)

  /** What reading and parsing a file yields. */
  datatype Source = Parsed(tree: Node) | SyntaxError | ReadFails

  function FileViolations(path: string, src: Source): seq<Violation> {
    match src
    case Parsed(tree) => Violations(path, tree, None)
    case _ => []
  }

  /** Lines 128-150: a fresh detector over the tree; a file that cannot be read or parsed has none. */
  method AnalyzeFile(path: string, src: Source) returns (violations: seq<Violation>)
    ensures violations == FileViolations(path, src)
  {
    match src {
      case Parsed(tree) =>
        var detector := new CredentialLeakDetector(path);
        detector.Visit(tree);
        violations := detector.violations;
      case SyntaxError =>
        violations := [];
      case ReadFails =>
        violations := [];
    }
  }

  function AllFileViolations(paths: seq<string>, srcs: seq<Source>): seq<Violation>
    requires |paths| == |srcs|
  {
    if paths == [] then []
    else
      AllFileViolations(paths[..|paths| - 1], srcs[..|srcs| - 1])
      + FileViolations(paths[|paths| - 1], srcs[|srcs| - 1])
  }

  /** Lines 152-213: the exit status; 1 when `src/` is missing or any violation was found. */
  method CheckAll(srcExists: bool, paths: seq<string>, srcs: seq<Source>)
    returns (all: seq<Violation>, exitCode: int)
    requires |paths| == |srcs|
    ensures srcExists ==> all == AllFileViolations(paths, srcs)
    ensures exitCode == if !srcExists || all != [] then 1 else 0
    ensures exitCode == 0 <==> srcExists && forall k :: 0 <= k < |srcs| ==> FileViolations(paths[k], srcs[k]) == []
  {
    all := [];
    if !srcExists {
      return [], 1;
    }
    var i := 0;
    while i < |paths|
      invariant 0 <= i <= |paths|
      invariant all == AllFileViolations(paths[..i], srcs[..i])
      decreases |paths| - i
    {
      var violations := AnalyzeFile(paths[i], srcs[i]);
      assert paths[..i + 1][..i] == paths[..i] && srcs[..i + 1][..i] == srcs[..i];
      if violations != [] {
        all := all + violations;
      }
      i := i + 1;
    }
    assert paths[..i] == paths && srcs[..i] == srcs;
    PassIff(paths, srcs);
    exitCode := if all != [] then 1 else 0;
  }

  /** The run passes exactly when no file yields a violation (a file that cannot be read or parsed yields none). */
  lemma {:induction false} PassIff(paths: seq<string>, srcs: seq<Source>)
    requires |paths| == |srcs|
    ensures AllFileViolations(paths, srcs) == [] <==>
      forall k :: 0 <= k < |srcs| ==> FileViolations(paths[k], srcs[k]) == []
    decreases |paths|
  {
    if paths != [] {
      var n := |paths| - 1;
      var prefix, last := AllFileViolations(paths[..n], srcs[..n]), FileViolations(paths[n], srcs[n]);
      PassIff(paths[..n], srcs[..n]);
      assert AllFileViolations(paths, srcs) == prefix + last;
      assert |prefix + last| == |prefix| + |last|;
      if forall k :: 0 <= k < |srcs| ==> FileViolations(paths[k], srcs[k]) == [] {
        forall k | 0 <= k < n ensures FileViolations(paths[..n][k], srcs[..n][k]) == [] {
          assert paths[..n][k] == paths[k] && srcs[..n][k] == srcs[k];
        }
      }
      if prefix == [] && last == [] {
        forall k | 0 <= k < |srcs| ensures FileViolations(paths[k], srcs[k]) == [] {
          if k < n {
            assert paths[..n][k] == paths[k] && srcs[..n][k] == srcs[k];
          }
        }
      }
    }
  }
}
