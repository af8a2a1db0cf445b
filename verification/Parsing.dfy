/** What the recursive-descent parser computes, as functions on the remaining tokens: the
    specification that the class in Parser.dfy refines and the theorems are about. */
module Parsing {
  import opened Ast
  import opened Grammar

  datatype ParseError =
    | ExpectedEndOfFile | ExpectedFunctionName | ExpectedParametersOrBody | ExpectedMoreParameters
    | ExpectedVariable | ExpectedType | ExpectedStatement | TargetNotIdentifier | NotACall
    | ExpectedBang | ExpectedCallName | ExpectedCallParameters | ExpectedMoreArguments
    | ExpectedBranchBegin | ExpectedCases | ExpectedBranchEnd | ExpectedComma
    | ExpectedExpression | MissingRightSide

  datatype Parsed<+T> = Ok(value: T, rest: seq<Token>) | Err(error: ParseError) {
    predicate IsFailure() { Err? }
    function PropagateFailure<U>(): Parsed<U>
      requires Err?
    {
      Err(error)
    }
    function Extract(): (T, seq<Token>)
      requires Ok?
    {
      (value, rest)
    }
  }

  /** Takes the next token; nothing comes after a final one. */
  function After(s: seq<Token>): (r: seq<Token>)
    requires Stream(s)
    ensures |r| == |s| - 1
    ensures if s[0].IsFinal() then r == [] else Stream(r)
  {
    s[1..]
  }

  // ----- names and types -----

  function ParseVariable(s: seq<Token>): (r: Parsed<Name>)
    requires Stream(s)
    ensures r.Ok? ==> Stream(r.rest) && |r.rest| < |s|
  {
    if s[0].ARTICLE? then
      var s1 := After(s);
      if s1[0].IDENTIFIER? then Ok(Name(true, s1[0].id), After(s1)) else Err(ExpectedVariable)
    else if s[0].IDENTIFIER? then Ok(Name(false, s[0].id), After(s))
    else Err(ExpectedVariable)
  }

  function ParseType(s: seq<Token>): (r: Parsed<VarType>)
    requires Stream(s)
    ensures r.Ok? ==> Stream(r.rest) && |r.rest| < |s|
  {
    if s[0].STAR? then
      var s1 := After(s);
      if s1[0].TYPENAME? then Ok(VarType(s1[0].base, true), After(s1)) else Err(ExpectedType)
    else if s[0].TYPENAME? then Ok(VarType(s[0].base, false), After(s))
    else Err(ExpectedType)
  }

  // ----- expressions -----

  /** Does an operator of priority `p` or more come next? */
  predicate Continues(s: seq<Token>, p: nat)
    requires Stream(s)
  {
    s[0].OP? && Priority(s[0].op) >= p
  }

  /** The result of something that was there. */
  function Maybe<T>(r: Parsed<T>): Parsed<Option<T>> {
    match r
    case Ok(x, rest) => Ok(Some(x), rest)
    case Err(e) => Err(e)
  }

  function MaybeTerm(s: seq<Token>, p: nat): (r: Parsed<Option<Term>>)
    requires Stream(s)
    ensures r.Ok? ==> Stream(r.rest) && if r.value.Some? then |r.rest| < |s| else r.rest == s
    decreases |s|, 2
  {
    var (a, r) :- MaybeOperand(s);
    if a.None? then Ok(None, s) else Maybe(Climb(a.value, r, p))
  }

  /** Precedence climbing: extends `lhs` while operators of priority `p` or more come next. */
  function Climb(lhs: Term, s: seq<Token>, p: nat): (r: Parsed<Term>)
    requires Stream(s)
    ensures r.Ok? ==> Stream(r.rest) && |r.rest| <= |s|
    decreases |s|, 3
  {
    if !Continues(s, p) then Ok(lhs, s)
    else
      var (rhs, r) :- MaybeTerm(After(s), Priority(s[0].op) + 1);
      if rhs.None? then Err(MissingRightSide) else Climb(Infix(s[0].op, lhs, rhs.value), r, p)
  }

  function MaybeOperand(s: seq<Token>): (r: Parsed<Option<Term>>)
    requires Stream(s)
    ensures r.Ok? ==> Stream(r.rest) && if r.value.Some? then |r.rest| < |s| else r.rest == s
    decreases |s|, 1
  {
    if s[0].ARTICLE? || s[0].IDENTIFIER? then
      var (v, r) :- ParseVariable(s);
      Ok(Some(Var(v)), r)
    else if s[0].INTEGER? then Ok(Some(Int(s[0].n)), After(s))
    else if s[0].FLOAT? then Ok(Some(Float(s[0].bits)), After(s))
    else if s[0].FUN_CALL? then Maybe(ParseCall(s))
    else Ok(None, s)
  }

  function ParseCall(s: seq<Token>): (r: Parsed<Term>)
    requires Stream(s) && s[0].FUN_CALL?
    ensures r.Ok? ==> Stream(r.rest) && |r.rest| < |s|
    decreases |s|, 0
  {
    var s1 := After(s);
    if !s1[0].IDENTIFIER? then Err(ExpectedCallName)
    else
      var (args, r) :- ParseArgs(After(s1));
      Ok(Invoke(s1[0].id, args), r)
  }

  function ParseArgs(s: seq<Token>): (r: Parsed<seq<Term>>)
    requires Stream(s)
    ensures r.Ok? ==> Stream(r.rest) && |r.rest| < |s|
    decreases |s|, 5
  {
    if s[0].FUN_END? then Ok([], After(s))
    else if s[0].FUN_PARAMS? then ParseMoreArgs(After(s))
    else Err(ExpectedCallParameters)
  }

  function ParseMoreArgs(s: seq<Token>): (r: Parsed<seq<Term>>)
    requires Stream(s)
    ensures r.Ok? ==> Stream(r.rest) && |r.rest| < |s| && r.value != []
    decreases |s|, 4
  {
    var (e, r) :- ParseTerm(s);
    if r[0].FUN_END? then Ok([e], After(r))
    else if r[0].COMMA? then
      var (more, r') :- ParseMoreArgs(After(r));
      Ok([e] + more, r')
    else Err(ExpectedMoreArguments)
  }

  function ParseTerm(s: seq<Token>): (r: Parsed<Term>)
    requires Stream(s)
    ensures r.Ok? ==> Stream(r.rest) && |r.rest| < |s|
    decreases |s|, 3
  {
    var (e, r) :- MaybeTerm(s, 0);
    if e.None? then Err(ExpectedExpression) else Ok(e.value, r)
  }

  // ----- statements -----

  /** Commas, then a statement if one comes next. */
  datatype Step = Step(commas: nat, s: Option<Sentence>)

  function MaybeLine(s: seq<Token>): (r: Parsed<Step>)
    requires Stream(s)
    ensures r.Ok? ==> Stream(r.rest) && |r.rest| <= |s| && (r.value.s.Some? ==> |r.rest| < |s|)
    decreases |s|, 3
  {
    if s[0].COMMA? then
      var (t, r) :- MaybeLine(After(s));
      Ok(t.(commas := t.commas + 1), r)
    else
      var (x, r) :- MaybeSentence(s);
      Ok(Step(0, x), r)
  }

  function MaybeSentence(s: seq<Token>): (r: Parsed<Option<Sentence>>)
    requires Stream(s)
    ensures r.Ok? ==> Stream(r.rest) && if r.value.Some? then |r.rest| < |s| else r.rest == s
    decreases |s|, 2
  {
    match s[0]
    case ASSERT => Maybe(ParseAssert(s))
    case INPUT => Maybe(ParseInput(s))
    case ABORT => Ok(Some(Aborting), After(s))
    case BRANCH_CONDITION => Maybe(ParseBranch(s))
    case VARDECL => Maybe(ParseVardecl(s))
    case LOOP_BEGIN => Maybe(ParseLoop(s))
    case RETURN => Maybe(ParseReturn(s))
    case _ => MaybeExpressionStatement(s)
  }

  /** A statement that starts with this token is told apart by it. */
  predicate Keyword(t: Token) {
    t.ASSERT? || t.INPUT? || t.ABORT? || t.BRANCH_CONDITION? || t.VARDECL? || t.LOOP_BEGIN? || t.RETURN?
  }

  lemma Dispatch(s: seq<Token>)
    requires Stream(s)
    ensures s[0].ASSERT? ==> MaybeSentence(s) == Maybe(ParseAssert(s))
    ensures s[0].INPUT? ==> MaybeSentence(s) == Maybe(ParseInput(s))
    ensures s[0].ABORT? ==> MaybeSentence(s) == Ok(Some(Aborting), After(s))
    ensures s[0].BRANCH_CONDITION? ==> MaybeSentence(s) == Maybe(ParseBranch(s))
    ensures s[0].VARDECL? ==> MaybeSentence(s) == Maybe(ParseVardecl(s))
    ensures s[0].LOOP_BEGIN? ==> MaybeSentence(s) == Maybe(ParseLoop(s))
    ensures s[0].RETURN? ==> MaybeSentence(s) == Maybe(ParseReturn(s))
    ensures !Keyword(s[0]) ==> MaybeSentence(s) == MaybeExpressionStatement(s)
  {
    hide ParseAssert, ParseInput, ParseBranch, ParseVardecl, ParseLoop, ParseReturn, MaybeExpressionStatement;
  }

  /** A statement that starts with an expression: what follows tells which one it is. */
  function MaybeExpressionStatement(s: seq<Token>): (r: Parsed<Option<Sentence>>)
    requires Stream(s)
    ensures r.Ok? ==> Stream(r.rest) && if r.value.Some? then |r.rest| < |s| else r.rest == s
  {
    var (e, r) :- MaybeTerm(s, 0);
    if e.None? then Ok(None, s)
    else if r[0].PRINT? then Ok(Some(Printing(e.value)), After(r))
    else if r[0].ASSIGN? then
      if !e.value.Var? then Err(TargetNotIdentifier)
      else
        var (rhs, r') :- ParseTerm(After(r));
        Ok(Some(Assigning(e.value.v, rhs)), r')
    else if e.value.Invoke? then Ok(Some(Calling(e.value.fn, e.value.args)), r)
    else Err(NotACall)
  }

  function ParseAssert(s: seq<Token>): (r: Parsed<Sentence>)
    requires Stream(s) && s[0].ASSERT?
    ensures r.Ok? ==> Stream(r.rest) && |r.rest| < |s|
  {
    var (e, r) :- ParseTerm(After(s));
    if r[0].BANG? then Ok(Asserting(e), After(r)) else Err(ExpectedBang)
  }

  function ParseInput(s: seq<Token>): (r: Parsed<Sentence>)
    requires Stream(s) && s[0].INPUT?
    ensures r.Ok? ==> Stream(r.rest) && |r.rest| < |s|
  {
    var (v, r) :- ParseVariable(After(s));
    Ok(Reading(v), r)
  }

  function MaybeInit(s: seq<Token>): (r: Parsed<Option<Term>>)
    requires Stream(s)
    ensures r.Ok? ==> Stream(r.rest) && |r.rest| <= |s|
  {
    if s[0].ASSIGN? then Maybe(ParseTerm(After(s))) else Ok(None, s)
  }

  function ParseVardecl(s: seq<Token>): (r: Parsed<Sentence>)
    requires Stream(s) && s[0].VARDECL?
    ensures r.Ok? ==> Stream(r.rest) && |r.rest| < |s|
  {
    var (v, r) :- ParseVariable(After(s));
    if !r[0].COMMA? then Err(ExpectedComma)
    else
      var (ty, r1) :- ParseType(After(r));
      var (init, r2) :- MaybeInit(r1);
      Ok(Declaring(v, ty, init), r2)
  }

  function MaybeValue(s: seq<Token>): (r: Parsed<Option<Term>>)
    requires Stream(s)
    ensures r.Ok? ==> Stream(r.rest) && |r.rest| <= |s|
  {
    if s[0].BANG? then Ok(None, s) else Maybe(ParseTerm(s))
  }

  function ParseReturn(s: seq<Token>): (r: Parsed<Sentence>)
    requires Stream(s) && s[0].RETURN?
    ensures r.Ok? ==> Stream(r.rest) && |r.rest| < |s|
  {
    var (value, r) :- MaybeValue(After(s));
    if r[0].BANG? then Ok(Returning(value), After(r)) else Err(ExpectedBang)
  }

  function ParseLoop(s: seq<Token>): (r: Parsed<Sentence>)
    requires Stream(s) && s[0].LOOP_BEGIN?
    ensures r.Ok? ==> Stream(r.rest) && |r.rest| < |s|
    decreases |s|, 1
  {
    var (body, r) :- ParseLoopBody(After(s));
    var (cond, r') :- ParseTerm(r);
    Ok(Looping(body, cond), r')
  }

  /** Statements up to the loop condition, which no comma may precede. */
  function ParseLoopBody(s: seq<Token>): (r: Parsed<seq<Line>>)
    requires Stream(s)
    ensures r.Ok? ==> Stream(r.rest) && |r.rest| < |s|
    decreases |s|, 4
  {
    if s[0].LOOP_CONDITION? then Ok([], After(s))
    else
      var (t, r) :- MaybeLine(s);
      if t.s.None? then Err(ExpectedStatement)
      else
        var (more, r') :- ParseLoopBody(r);
        Ok([Line(t.commas, t.s.value)] + more, r')
  }

  function ParseText(s: seq<Token>): (r: Parsed<Text>)
    requires Stream(s)
    ensures r.Ok? ==> Stream(r.rest) && |r.rest| <= |s|
    decreases |s|, 4
  {
    var (t, r) :- MaybeLine(s);
    if t.s.None? then Ok(Text([], t.commas), r)
    else
      var (more, r') :- ParseText(r);
      Ok(Text([Line(t.commas, t.s.value)] + more.lines, more.commas), r')
  }

  function SkipColon(s: seq<Token>): (r: (bool, seq<Token>))
    requires Stream(s)
    ensures Stream(r.1) && |r.1| <= |s|
  {
    if s[0].COLON? then (true, After(s)) else (false, s)
  }

  function MaybeOperator(s: seq<Token>): (r: (Option<Op>, seq<Token>))
    requires Stream(s)
    ensures Stream(r.1) && |r.1| <= |s|
  {
    if s[0].OP? then (Some(s[0].op), After(s)) else (None, s)
  }

  function ParseCase(s: seq<Token>): (r: Parsed<Alternative>)
    requires Stream(s)
    ensures r.Ok? ==> Stream(r.rest) && |r.rest| < |s|
    decreases |s|, 5
  {
    var (op, r) := MaybeOperator(s);
    var (rhs, r1) :- ParseTerm(r);
    var (colon, r2) := SkipColon(r1);
    var (body, r3) :- ParseText(r2);
    Ok(Alternative(op, rhs, colon, body), r3)
  }

  /** The cases of a branch: another one follows as long as CASE_END comes next. */
  function ParseCases(s: seq<Token>): (r: Parsed<seq<Alternative>>)
    requires Stream(s)
    ensures r.Ok? ==> Stream(r.rest) && |r.rest| < |s| && r.value != []
    ensures r.Ok? ==> r.rest[0].BRANCH_ELSE? || r.rest[0].BRANCH_END?
    decreases |s|, 6
  {
    var (c, r) :- ParseCase(s);
    if r[0].CASE_END? then
      var (more, r') :- ParseCases(After(r));
      Ok([c] + more, r')
    else if r[0].BRANCH_ELSE? || r[0].BRANCH_END? then Ok([c], r)
    else Err(ExpectedCases)
  }

  function ParseOtherwise(s: seq<Token>): (r: Parsed<Otherwise>)
    requires Stream(s) && (s[0].BRANCH_ELSE? || s[0].BRANCH_END?)
    ensures r.Ok? ==> Stream(r.rest) && |r.rest| < |s|
    decreases |s|, 5
  {
    if s[0].BRANCH_END? then Ok(Nothing, After(s))
    else
      var (colon, r) := SkipColon(After(s));
      var (body, r1) :- ParseText(r);
      if r1[0].BRANCH_END? then Ok(Otherwise(colon, body), After(r1)) else Err(ExpectedBranchEnd)
  }

  function ParseBranch(s: seq<Token>): (r: Parsed<Sentence>)
    requires Stream(s) && s[0].BRANCH_CONDITION?
    ensures r.Ok? ==> Stream(r.rest) && |r.rest| < |s|
    decreases |s|, 1
  {
    var (v, r) :- ParseVariable(After(s));
    if !r[0].BRANCH_BEGIN? then Err(ExpectedBranchBegin)
    else
      var (cases, r1) :- ParseCases(After(r));
      var (o, r2) :- ParseOtherwise(r1);
      Ok(Branching(v, cases, o), r2)
  }

  // ----- functions and modules -----

  function ParseParam(s: seq<Token>): (r: Parsed<ParamText>)
    requires Stream(s)
    ensures r.Ok? ==> Stream(r.rest) && |r.rest| < |s|
  {
    var (v, r) :- ParseVariable(s);
    var (ty, r1) :- ParseType(r);
    Ok(ParamText(v, ty), r1)
  }

  function ParseParams(s: seq<Token>): (r: Parsed<seq<ParamText>>)
    requires Stream(s)
    ensures r.Ok? ==> Stream(r.rest) && |r.rest| < |s| && r.value != []
    decreases |s|
  {
    var (p, r) :- ParseParam(s);
    if r[0].COMMA? then
      var (more, r1) :- ParseParams(After(r));
      Ok([p] + more, r1)
    else if r[0].FUN_END? then Ok([p], After(r))
    else Err(ExpectedMoreParameters)
  }

  function MaybeType(s: seq<Token>): (r: Parsed<Option<VarType>>)
    requires Stream(s)
    ensures r.Ok? ==> Stream(r.rest) && |r.rest| <= |s|
  {
    if s[0].STAR? || s[0].TYPENAME? then Maybe(ParseType(s)) else Ok(None, s)
  }

  function ParseParamList(s: seq<Token>): (r: Parsed<seq<ParamText>>)
    requires Stream(s)
    ensures r.Ok? ==> Stream(r.rest) && |r.rest| < |s|
  {
    if s[0].FUN_END? then Ok([], After(s))
    else if s[0].FUN_PARAMS? then ParseParams(After(s))
    else Err(ExpectedParametersOrBody)
  }

  function ParseFunction(s: seq<Token>): (r: Parsed<FunctionText>)
    requires Stream(s) && s[0].FUN_DECL?
    ensures r.Ok? ==> Stream(r.rest) && |r.rest| < |s|
  {
    var (ret, r) :- MaybeType(After(s));
    if !r[0].IDENTIFIER? then Err(ExpectedFunctionName)
    else
      var (ps, r1) :- ParseParamList(After(r));
      var (body, r2) :- ParseText(r1);
      Ok(FunctionText(ret, r[0].id, ps, body), r2)
  }

  function ParseFunctions(s: seq<Token>): (r: Parsed<seq<FunctionText>>)
    requires Stream(s)
    ensures r.Ok? ==> Stream(r.rest) && |r.rest| <= |s| && !r.rest[0].FUN_DECL?
    decreases |s|
  {
    if !s[0].FUN_DECL? then Ok([], s)
    else
      var (f, r) :- ParseFunction(s);
      var (more, r1) :- ParseFunctions(r);
      Ok([f] + more, r1)
  }

  function MaybeEntryPoint(s: seq<Token>): (r: Parsed<Option<Text>>)
    requires Stream(s)
    ensures r.Ok? ==> Stream(r.rest) && |r.rest| <= |s| && (r.value.None? ==> r.rest == s)
  {
    if s[0].ENTRY_POINT? then Maybe(ParseText(After(s))) else Ok(None, s)
  }

  /** The whole stream: nothing is left after the final token. */
  function ParseModule(s: seq<Token>): (r: Parsed<ModuleText>)
    requires Stream(s)
    ensures r.Ok? ==> r.rest == []
  {
    var (before, r) :- ParseFunctions(s);
    var (entry, r1) :- MaybeEntryPoint(r);
    var (after, r2) :- ParseFunctions(r1);
    if r2[0].END? then Ok(ModuleText(before, entry, after), After(r2)) else Err(ExpectedEndOfFile)
  }
}
