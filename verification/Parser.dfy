/** The parser as an object with one token of lookahead.  Every method takes from the stream
    what its specification takes, returns the tree of what that spells, or fails with the
    same error; none ever asks for a token that is not there. */
module Parser {
  import opened Ast
  import opened Grammar
  import opened Parsing

  datatype Answer<+T> = Yes(value: T) | No(error: ParseError)

  function Map<C, A>(p: Parsed<C>, f: C -> A): Parsed<A> {
    match p
    case Ok(c, rest) => Ok(f(c), rest)
    case Err(e) => Err(e)
  }

  function MapMaybe<C, A>(p: Parsed<Option<C>>, f: C -> A): Parsed<Option<A>> {
    match p
    case Ok(None, rest) => Ok(None, rest)
    case Ok(Some(c), rest) => Ok(Some(f(c)), rest)
    case Err(e) => Err(e)
  }

  /** What was collected so far, in front of the rest. */
  function Prefix<A>(done: seq<A>, p: Parsed<seq<A>>): Parsed<seq<A>> {
    match p
    case Ok(more, rest) => Ok(done + more, rest)
    case Err(e) => Err(e)
  }

  predicate Reads<A(==)>(spec: Parsed<A>, now: seq<Token>, r: Answer<A>) {
    match spec
    case Ok(a, rest) => r == Yes(a) && now == rest
    case Err(e) => r == No(e)
  }

  lemma PrefixNone<A>(p: Parsed<seq<A>>)
    ensures Prefix([], p) == p
  {
    if p.Ok? {
      assert [] + p.value == p.value;
    }
  }

  lemma PrefixMore<A>(a: seq<A>, b: seq<A>, p: Parsed<seq<A>>)
    ensures Prefix(a, Prefix(b, p)) == Prefix(a + b, p)
  {
    if p.Ok? {
      assert a + (b + p.value) == a + b + p.value;
    }
  }

  /** One turn of the loop over arguments. */
  lemma ArgsStep(s: seq<Token>)
    requires Stream(s)
    ensures var p := Map(ParseMoreArgs(s), ArgsAst);
            match ParseTerm(s)
            case Err(e) => p == Err(e)
            case Ok(t, r) =>
              if r[0].FUN_END? then p == Ok([TermAst(t)], After(r))
              else if r[0].COMMA? then p == Prefix([TermAst(t)], Map(ParseMoreArgs(After(r)), ArgsAst))
              else p == Err(ExpectedMoreArguments)
  {
    hide ParseTerm, TermAst;
    if ParseTerm(s).Ok? {
      assert ArgsAst([ParseTerm(s).value]) == [TermAst(ParseTerm(s).value)];
    }
  }

  /** One turn of the loop over statements. */
  lemma TextStep(s: seq<Token>)
    requires Stream(s)
    ensures var p := Map(ParseText(s), TextAst);
            match MaybeLine(s)
            case Err(e) => p == Err(e)
            case Ok(t, r) => if t.s.None? then p == Ok([], r) else p == Prefix([StepAst(t).value], Map(ParseText(r), TextAst))
  {
    hide MaybeLine, SentenceAst;
    StepIsLine(s);
  }

  lemma LoopBodyStep(s: seq<Token>)
    requires Stream(s) && !s[0].LOOP_CONDITION?
    ensures var p := Map(ParseLoopBody(s), LinesAst);
            match MaybeLine(s)
            case Err(e) => p == Err(e)
            case Ok(t, r) =>
              if t.s.None? then p == Err(ExpectedStatement) else p == Prefix([StepAst(t).value], Map(ParseLoopBody(r), LinesAst))
  {
    hide MaybeLine, SentenceAst;
    StepIsLine(s);
  }

  lemma StepIsLine(s: seq<Token>)
    requires Stream(s)
    ensures var m := MaybeLine(s);
            m.Ok? && m.value.s.Some? ==> LineAst(Line(m.value.commas, m.value.s.value)) == StepAst(m.value).value
  {
  }

  function CaseOf(lead: string, p: Parsed<Alternative>): Parsed<Case> {
    match p
    case Ok(c, rest) => Ok(CaseAst(lead, c), rest)
    case Err(e) => Err(e)
  }

  function CasesOf(lead: string, p: Parsed<seq<Alternative>>): Parsed<seq<Case>> {
    match p
    case Ok(cs, rest) => Ok(CasesAst(lead, cs), rest)
    case Err(e) => Err(e)
  }

  /** What may follow a case: another one, or the end of the cases. */
  function MoreCases(lead: string, s: seq<Token>): Parsed<seq<Case>>
    requires Stream(s)
  {
    if s[0].CASE_END? then CasesOf(lead, ParseCases(After(s)))
    else if s[0].BRANCH_ELSE? || s[0].BRANCH_END? then Ok([], s)
    else Err(ExpectedCases)
  }

  /** One turn of the loop over cases. */
  lemma CasesStep(lead: string, s: seq<Token>)
    requires Stream(s)
    ensures var p := ParseCase(s);
            && (p.Err? ==> CasesOf(lead, ParseCases(s)) == Err(p.error))
            && (p.Ok? ==> CasesOf(lead, ParseCases(s)) == Prefix([CaseAst(lead, p.value)], MoreCases(lead, p.rest)))
  {
    hide ParseCase, CaseAst;
    var p := ParseCase(s);
    if p.Ok? {
      assert CasesAst(lead, [p.value]) == [CaseAst(lead, p.value)];
    }
  }

  /** One turn of the loop over parameters. */
  lemma ParamsStep(s: seq<Token>)
    requires Stream(s)
    ensures var p := Map(ParseParams(s), ParamsAst);
            match ParseParam(s)
            case Err(e) => p == Err(e)
            case Ok(x, r) =>
              if r[0].FUN_END? then p == Ok([Param(x.v.id, x.ty)], After(r))
              else if r[0].COMMA? then p == Prefix([Param(x.v.id, x.ty)], Map(ParseParams(After(r)), ParamsAst))
              else p == Err(ExpectedMoreParameters)
  {
    hide ParseParam;
    var p := ParseParam(s);
    if p.Ok? {
      assert ParamsAst([p.value]) == [Param(p.value.v.id, p.value.ty)];
    }
  }

  /** One turn of the loop over functions. */
  lemma FunctionsStep(s: seq<Token>)
    requires Stream(s)
    ensures var p := Map(ParseFunctions(s), FunctionsAst);
            if !s[0].FUN_DECL? then p == Ok([], s)
            else
              match ParseFunction(s)
              case Err(e) => p == Err(e)
              case Ok(f, r) => p == Prefix([FunctionAst(f)], Map(ParseFunctions(r), FunctionsAst))
  {
    hide ParseFunction, FunctionAst;
  }

  /** An expression is an operand and what climbing makes of it. */
  lemma TermStarts(s: seq<Token>, p: nat)
    requires Stream(s)
    ensures var m := MaybeOperand(s);
            && (m.Err? ==> MaybeTerm(s, p) == Err(m.error))
            && (m.Ok? && m.value.None? ==> MaybeTerm(s, p) == Ok(None, s))
            && (m.Ok? && m.value.Some? ==> MaybeTerm(s, p) == Maybe(Climb(m.value.value, m.rest, p)))
  {
    hide MaybeOperand, Climb;
  }

  /** One turn of the climbing loop. */
  lemma ClimbTurn(e: Term, s: seq<Token>, p: nat)
    requires Stream(s)
    ensures !s[0].OP? || Priority(s[0].op) < p ==> Climb(e, s, p) == Ok(e, s)
    ensures s[0].OP? && Priority(s[0].op) >= p ==>
              var m := MaybeTerm(After(s), Priority(s[0].op) + 1);
              && (m.Err? ==> Climb(e, s, p) == Err(m.error))
              && (m.Ok? && m.value.None? ==> Climb(e, s, p) == Err(MissingRightSide))
              && (m.Ok? && m.value.Some? ==>
                    && Climb(e, s, p) == Climb(Infix(s[0].op, e, m.value.value), m.rest, p)
                    && TermAst(Infix(s[0].op, e, m.value.value)) == Binary(s[0].op, TermAst(e), TermAst(m.value.value), false))
  {
    hide MaybeTerm;
  }

  /** What the first token of a statement decides. */
  lemma SentenceStep(s: seq<Token>)
    requires Stream(s)
    ensures var p := MapMaybe(MaybeSentence(s), SentenceAst);
            && (s[0].ASSERT? ==> p == Maybe(Map(ParseAssert(s), SentenceAst)))
            && (s[0].INPUT? ==> p == Maybe(Map(ParseInput(s), SentenceAst)))
            && (s[0].ABORT? ==> p == Ok(Some(Abort), After(s)))
            && (s[0].BRANCH_CONDITION? ==> p == Maybe(Map(ParseBranch(s), SentenceAst)))
            && (s[0].VARDECL? ==> p == Maybe(Map(ParseVardecl(s), SentenceAst)))
            && (s[0].LOOP_BEGIN? ==> p == Maybe(Map(ParseLoop(s), SentenceAst)))
            && (s[0].RETURN? ==> p == Maybe(Map(ParseReturn(s), SentenceAst)))
            && (!Keyword(s[0]) ==> p == MapMaybe(MaybeExpressionStatement(s), SentenceAst))
  {
    hide ParseAssert, ParseInput, ParseBranch, ParseVardecl, ParseLoop, ParseReturn, MaybeExpressionStatement, MaybeSentence;
    Dispatch(s);
  }

  /** What the token after an expression decides. */
  lemma ExpressionStatementStep(s: seq<Token>)
    requires Stream(s)
    ensures var p, m := MapMaybe(MaybeExpressionStatement(s), SentenceAst), MaybeTerm(s, 0);
            && (m.Err? ==> p == Err(m.error))
            && (m.Ok? && m.value.None? ==> p == Ok(None, s))
            && (m.Ok? && m.value.Some? ==> p == AfterTerm(TermAst(m.value.value), m.rest))
  {
    hide MaybeTerm, ParseTerm, ArgsAst;
  }

  function AfterTerm(x: Expr, s: seq<Token>): Parsed<Option<Stmt>>
    requires Stream(s)
  {
    if s[0].PRINT? then Ok(Some(Print(x)), After(s))
    else if s[0].ASSIGN? then
      if !x.Identifier? then Err(TargetNotIdentifier)
      else
        var (rhs, r) :- Map(ParseTerm(After(s)), TermAst);
        Ok(Some(Assign(x.name, rhs)), r)
    else if x.Call? then Ok(Some(ExprStmt(x)), s)
    else Err(NotACall)
  }

  function NameAst(v: Name): string { v.id }

  function StepAst(t: Step): Option<Stmt> { match t.s case None => None case Some(x) => Some(SentenceAst(x)) }

  function TextAst(t: Text): seq<Stmt> { LinesAst(t.lines) }

  class Parser {
    /** The token to look at, unless the stream is exhausted. */
    var current: Option<Token>
    /** What the lexer has still to deliver. */
    var pending: seq<Token>

    function Remaining(): seq<Token>
      reads this
    {
      if current.None? then [] else [current.value] + pending
    }

    constructor (tokens: seq<Token>)
      requires Stream(tokens)
      ensures Remaining() == tokens
    {
      current, pending := Some(tokens[0]), tokens[1..];
    }

    method PeekNextToken() returns (t: Token)
      requires Stream(Remaining())
      ensures t == Remaining()[0]
    {
      t := current.value;
    }

    method GetNextToken() returns (t: Token)
      requires Stream(Remaining())
      modifies this
      ensures t == old(Remaining())[0] && Remaining() == After(old(Remaining()))
      ensures Remaining() == [] <==> t.END? || t.UNKNOWN?
    {
      assert After(Remaining()) == pending;
      t := current.value;
      if t.IsFinal() {
        current := None;
      } else {
        current, pending := Some(pending[0]), pending[1..];
      }
    }

    method IgnoreNextToken()
      requires Stream(Remaining())
      modifies this
      ensures Remaining() == After(old(Remaining()))
    {
      var _ := GetNextToken();
    }

    // ----- names and types -----

    method ReadVariable() returns (r: Answer<string>)
      requires Stream(Remaining())
      modifies this
      ensures Reads(Map(ParseVariable(old(Remaining())), NameAst), Remaining(), r)
    {
      var t := GetNextToken();
      if t.ARTICLE? {
        t := GetNextToken();
      }
      if !t.IDENTIFIER? {
        return No(ExpectedVariable);
      }
      r := Yes(t.id);
    }

    method ReadType() returns (r: Answer<VarType>)
      requires Stream(Remaining())
      modifies this
      ensures Reads(ParseType(old(Remaining())), Remaining(), r)
    {
      var t := GetNextToken();
      var pointer := t.STAR?;
      if pointer {
        t := GetNextToken();
      }
      if !t.TYPENAME? {
        return No(ExpectedType);
      }
      r := Yes(VarType(t.base, pointer));
    }

    // ----- expressions -----

    method MaybeReadExpression(minPrecedence: nat) returns (r: Answer<Option<Expr>>)
      requires Stream(Remaining())
      modifies this
      ensures Reads(MapMaybe(MaybeTerm(old(Remaining()), minPrecedence), TermAst), Remaining(), r)
      decreases |Remaining()|, 2
    {
      hide MaybeOperand, MaybeTerm, Climb, Continues, TermAst, Remaining, After;
      TermStarts(Remaining(), minPrecedence);
      ghost var operand := MaybeOperand(Remaining());
      var m := MaybeReadAtomicExpression();
      if m.No? || m.value.None? {
        return m;
      }
      var lhs := m.value.value;
      ghost var e := operand.value.value;
      while true
        invariant Stream(Remaining()) && lhs == TermAst(e) && |Remaining()| < |old(Remaining())|
        invariant MaybeTerm(old(Remaining()), minPrecedence) == Maybe(Climb(e, Remaining(), minPrecedence))
        decreases |Remaining()|
      {
        ghost var s := Remaining();
        ClimbTurn(e, s, minPrecedence);
        var t := PeekNextToken();
        if !t.OP? || Priority(t.op) < minPrecedence {
          break;
        }
        IgnoreNextToken();
        ghost var right := MaybeTerm(After(s), Priority(t.op) + 1);
        var rhs := MaybeReadExpression(Priority(t.op) + 1);
        if rhs.No? {
          return No(rhs.error);
        }
        if rhs.value.None? {
          return No(MissingRightSide);
        }
        lhs := Binary(t.op, lhs, rhs.value.value, false);
        e := Infix(t.op, e, right.value.value);
      }
      r := Yes(Some(lhs));
    }

    method MaybeReadAtomicExpression() returns (r: Answer<Option<Expr>>)
      requires Stream(Remaining())
      modifies this
      ensures Reads(MapMaybe(MaybeOperand(old(Remaining())), TermAst), Remaining(), r)
      decreases |Remaining()|, 1
    {
      var t := PeekNextToken();
      if t.ARTICLE? || t.IDENTIFIER? {
        var v := ReadVariable();
        r := if v.Yes? then Yes(Some(Identifier(v.value))) else No(v.error);
      } else if t.INTEGER? {
        IgnoreNextToken();
        r := Yes(Some(IntLit(t.n)));
      } else if t.FLOAT? {
        IgnoreNextToken();
        r := Yes(Some(FloatLit(t.bits)));
      } else if t.FUN_CALL? {
        var e := ReadFunctionCallExpression();
        r := if e.Yes? then Yes(Some(e.value)) else No(e.error);
      } else {
        r := Yes(None);
      }
    }

    method ReadFunctionCallExpression() returns (r: Answer<Expr>)
      requires Stream(Remaining()) && Remaining()[0].FUN_CALL?
      modifies this
      ensures Reads(Map(ParseCall(old(Remaining())), TermAst), Remaining(), r)
      decreases |Remaining()|, 0
    {
      hide ParseMoreArgs, ArgsAst, Remaining;
      IgnoreNextToken();
      var t := GetNextToken();
      if !t.IDENTIFIER? {
        return No(ExpectedCallName);
      }
      var fn := t.id;
      var args: seq<Expr> := [];
      t := GetNextToken();
      if t.FUN_PARAMS? {
        var a := ReadArguments();
        if a.No? {
          return No(a.error);
        }
        args := a.value;
      } else if !t.FUN_END? {
        return No(ExpectedCallParameters);
      }
      r := Yes(Call(fn, args));
    }

    /** The arguments of a call, one at least, up to its end. */
    method ReadArguments() returns (r: Answer<seq<Expr>>)
      requires Stream(Remaining())
      modifies this
      ensures Reads(Map(ParseMoreArgs(old(Remaining())), ArgsAst), Remaining(), r)
      decreases |Remaining()|, 4
    {
      hide ParseTerm, ParseMoreArgs, TermAst, ArgsAst;
      ghost var s0 := Remaining();
      var args: seq<Expr> := [];
      var done := false;
      PrefixNone(Map(ParseMoreArgs(s0), ArgsAst));
      while !done
        invariant !done ==> Stream(Remaining()) && |Remaining()| <= |s0|
        invariant !done ==> Map(ParseMoreArgs(s0), ArgsAst) == Prefix(args, Map(ParseMoreArgs(Remaining()), ArgsAst))
        invariant done ==> Map(ParseMoreArgs(s0), ArgsAst) == Ok(args, Remaining())
        decreases !done, |Remaining()|
      {
        ArgsStep(Remaining());
        var e := ReadExpression();
        if e.No? {
          return No(e.error);
        }
        var t := GetNextToken();
        if t.FUN_END? {
          done := true;
        } else if t.COMMA? {
          PrefixMore(args, [e.value], Map(ParseMoreArgs(Remaining()), ArgsAst));
        } else {
          return No(ExpectedMoreArguments);
        }
        args := args + [e.value];
      }
      r := Yes(args);
    }

    method ReadExpression() returns (r: Answer<Expr>)
      requires Stream(Remaining())
      modifies this
      ensures Reads(Map(ParseTerm(old(Remaining())), TermAst), Remaining(), r)
      decreases |Remaining()|, 3
    {
      var m := MaybeReadExpression(0);
      if m.No? {
        return No(m.error);
      }
      if m.value.None? {
        return No(ExpectedExpression);
      }
      r := Yes(m.value.value);
    }
  
    // ----- statements -----

    /** Statements as long as there are any; trailing commas are taken too. */
    method ReadStatements() returns (r: Answer<seq<Stmt>>)
      requires Stream(Remaining())
      modifies this
      ensures Reads(Map(ParseText(old(Remaining())), TextAst), Remaining(), r)
      decreases |Remaining()|, 4
    {
      hide ParseText, MaybeLine, TextAst, StepAst;
      ghost var s0 := Remaining();
      var statements: seq<Stmt> := [];
      PrefixNone(Map(ParseText(s0), TextAst));
      while true
        invariant Stream(Remaining()) && |Remaining()| <= |s0|
        invariant Map(ParseText(s0), TextAst) == Prefix(statements, Map(ParseText(Remaining()), TextAst))
        decreases |Remaining()|
      {
        TextStep(Remaining());
        ghost var m := MaybeLine(Remaining());
        var s := MaybeReadStatement();
        if s.No? {
          return No(s.error);
        }
        StepHasSentence(m.value);
        if s.value.None? {
          assert statements + [] == statements;
          break;
        }
        PrefixMore(statements, [s.value.value], Map(ParseText(Remaining()), TextAst));
        statements := statements + [s.value.value];
      }
      r := Yes(statements);
    }

    method ReadStatement() returns (r: Answer<Stmt>)
      requires Stream(Remaining())
      modifies this
      ensures match MaybeLine(old(Remaining()))
              case Err(e) => r == No(e)
              case Ok(t, rest) => if t.s.None? then r == No(ExpectedStatement) else r == Yes(StepAst(t).value) && Remaining() == rest
      decreases |Remaining()|, 4
    {
      hide MaybeLine, SentenceAst;
      var s := MaybeReadStatement();
      if s.No? {
        return No(s.error);
      }
      if s.value.None? {
        return No(ExpectedStatement);
      }
      r := Yes(s.value.value);
    }

    method MaybeReadStatement() returns (r: Answer<Option<Stmt>>)
      requires Stream(Remaining())
      modifies this
      ensures Reads(Map(MaybeLine(old(Remaining())), StepAst), Remaining(), r)
      decreases |Remaining()|, 3
    {
      hide MaybeSentence, SentenceAst;
      var t := PeekNextToken();
      if t.COMMA? {
        IgnoreNextToken();
        r := MaybeReadStatement();
      } else {
        r := MaybeReadSentence();
      }
    }

    method MaybeReadSentence() returns (r: Answer<Option<Stmt>>)
      requires Stream(Remaining())
      modifies this
      ensures Reads(MapMaybe(MaybeSentence(old(Remaining())), SentenceAst), Remaining(), r)
      decreases |Remaining()|, 2
    {
      hide ParseAssert, ParseInput, ParseBranch, ParseVardecl, ParseLoop, ParseReturn, MaybeExpressionStatement, SentenceAst,
           Remaining, After, Map, MapMaybe;
      SentenceStep(Remaining());
      var t := PeekNextToken();
      var s: Answer<Stmt>;
      match t {
        case ASSERT => s := ReadAssertStatement();
        case INPUT => s := ReadInputStatement();
        case ABORT => s := ReadAbortStatement();
        case BRANCH_CONDITION => s := ReadBranchStatement();
        case VARDECL => s := ReadVardeclStatement();
        case LOOP_BEGIN => s := ReadLoopStatement();
        case RETURN => s := ReadReturnStatement();
        case _ =>
          r := MaybeReadExpressionStatement();
          return;
      }
      r := if s.Yes? then Yes(Some(s.value)) else No(s.error);
    }

    method MaybeReadExpressionStatement() returns (r: Answer<Option<Stmt>>)
      requires Stream(Remaining())
      modifies this
      ensures Reads(MapMaybe(MaybeExpressionStatement(old(Remaining())), SentenceAst), Remaining(), r)
    {
      hide MaybeTerm, ParseTerm, TermAst, MaybeExpressionStatement, SentenceAst, Remaining, After;
      ExpressionStatementStep(Remaining());
      ghost var m := MaybeTerm(Remaining(), 0);
      var e := MaybeReadExpression(0);
      if e.No? {
        return No(e.error);
      }
      if e.value.None? {
        return Yes(None);
      }
      var x := e.value.value;
      var t := PeekNextToken();
      if t.PRINT? {
        IgnoreNextToken();
        return Yes(Some(Print(x)));
      }
      if t.ASSIGN? {
        if !x.Identifier? {
          return No(TargetNotIdentifier);
        }
        IgnoreNextToken();
        var rhs := ReadExpression();
        return if rhs.Yes? then Yes(Some(Assign(x.name, rhs.value))) else No(rhs.error);
      }
      r := if x.Call? then Yes(Some(ExprStmt(x))) else No(NotACall);
    }

    method ReadAssertStatement() returns (r: Answer<Stmt>)
      requires Stream(Remaining()) && Remaining()[0].ASSERT?
      modifies this
      ensures Reads(Map(ParseAssert(old(Remaining())), SentenceAst), Remaining(), r)
    {
      hide ParseTerm, TermAst;
      IgnoreNextToken();
      var e := ReadExpression();
      if e.No? {
        return No(e.error);
      }
      var t := GetNextToken();
      r := if t.BANG? then Yes(Assert(e.value)) else No(ExpectedBang);
    }

    method ReadInputStatement() returns (r: Answer<Stmt>)
      requires Stream(Remaining()) && Remaining()[0].INPUT?
      modifies this
      ensures Reads(Map(ParseInput(old(Remaining())), SentenceAst), Remaining(), r)
    {
      IgnoreNextToken();
      var v := ReadVariable();
      r := if v.Yes? then Yes(Input(v.value)) else No(v.error);
    }

    method ReadAbortStatement() returns (r: Answer<Stmt>)
      requires Stream(Remaining()) && Remaining()[0].ABORT?
      modifies this
      ensures r == Yes(Abort) && Remaining() == After(old(Remaining()))
    {
      IgnoreNextToken();
      r := Yes(Abort);
    }

    method ReadVardeclStatement() returns (r: Answer<Stmt>)
      requires Stream(Remaining()) && Remaining()[0].VARDECL?
      modifies this
      ensures Reads(Map(ParseVardecl(old(Remaining())), SentenceAst), Remaining(), r)
    {
      hide ParseVariable, ParseType, ParseTerm, TermAst, Remaining, After;
      IgnoreNextToken();
      var v := ReadVariable();
      if v.No? {
        return No(v.error);
      }
      var t := GetNextToken();
      if !t.COMMA? {
        return No(ExpectedComma);
      }
      var ty := ReadType();
      if ty.No? {
        return No(ty.error);
      }
      var init: Option<Expr> := None;
      t := PeekNextToken();
      if t.ASSIGN? {
        IgnoreNextToken();
        var e := ReadExpression();
        if e.No? {
          return No(e.error);
        }
        init := Some(e.value);
      }
      r := Yes(Vardecl(v.value, ty.value, init));
    }

    method ReadReturnStatement() returns (r: Answer<Stmt>)
      requires Stream(Remaining()) && Remaining()[0].RETURN?
      modifies this
      ensures Reads(Map(ParseReturn(old(Remaining())), SentenceAst), Remaining(), r)
    {
      hide ParseTerm, TermAst;
      IgnoreNextToken();
      var t := PeekNextToken();
      if t.BANG? {
        IgnoreNextToken();
        return Yes(Return(None));
      }
      var e := ReadExpression();
      if e.No? {
        return No(e.error);
      }
      t := GetNextToken();
      r := if t.BANG? then Yes(Return(Some(e.value))) else No(ExpectedBang);
    }

    method ReadLoopStatement() returns (r: Answer<Stmt>)
      requires Stream(Remaining()) && Remaining()[0].LOOP_BEGIN?
      modifies this
      ensures Reads(Map(ParseLoop(old(Remaining())), SentenceAst), Remaining(), r)
      decreases |Remaining()|, 1
    {
      hide ParseLoopBody, ParseTerm, LinesAst, TermAst;
      IgnoreNextToken();
      var body := ReadLoopBody();
      if body.No? {
        return No(body.error);
      }
      var cond := ReadExpression();
      r := if cond.Yes? then Yes(Loop(body.value, cond.value)) else No(cond.error);
    }

    method ReadLoopBody() returns (r: Answer<seq<Stmt>>)
      requires Stream(Remaining())
      modifies this
      ensures Reads(Map(ParseLoopBody(old(Remaining())), LinesAst), Remaining(), r)
      decreases |Remaining()|, 5
    {
      hide MaybeLine, LinesAst, StepAst;
      ghost var s0 := Remaining();
      var body: seq<Stmt> := [];
      PrefixNone(Map(ParseLoopBody(s0), LinesAst));
      var t := PeekNextToken();
      while !t.LOOP_CONDITION?
        invariant Stream(Remaining()) && t == Remaining()[0] && |Remaining()| <= |s0|
        invariant Map(ParseLoopBody(s0), LinesAst) == Prefix(body, Map(ParseLoopBody(Remaining()), LinesAst))
        decreases |Remaining()|
      {
        LoopBodyStep(Remaining());
        var s := ReadStatement();
        if s.No? {
          return No(s.error);
        }
        PrefixMore(body, [s.value], Map(ParseLoopBody(Remaining()), LinesAst));
        body := body + [s.value];
        t := PeekNextToken();
      }
      EmptyBody(body);
      IgnoreNextToken();
      r := Yes(body);
    }

    method ReadSemiExpression(lead: string) returns (r: Answer<Expr>)
      requires Stream(Remaining())
      modifies this
      ensures var (op, s) := MaybeOperator(old(Remaining()));
              match ParseTerm(s)
              case Err(e) => r == No(e)
              case Ok(rhs, rest) =>
                r == Yes(Binary(if op.Some? then op.value else EQ, Identifier(lead), TermAst(rhs), true)) && Remaining() == rest
      decreases |Remaining()|, 4
    {
      hide ParseTerm, TermAst;
      var op := EQ;
      var t := PeekNextToken();
      if t.OP? {
        IgnoreNextToken();
        op := t.op;
      }
      var rhs := ReadExpression();
      r := if rhs.Yes? then Yes(Binary(op, Identifier(lead), rhs.value, true)) else No(rhs.error);
    }

    method SkipColonToken()
      requires Stream(Remaining())
      modifies this
      ensures Remaining() == SkipColon(old(Remaining())).1
    {
      var t := PeekNextToken();
      if t.COLON? {
        IgnoreNextToken();
      }
    }

    method ReadBranchCase(lead: string) returns (r: Answer<Case>)
      requires Stream(Remaining())
      modifies this
      ensures Reads(CaseOf(lead, ParseCase(old(Remaining()))), Remaining(), r)
      decreases |Remaining()|, 5
    {
      hide ParseTerm, ParseText, MaybeOperator, SkipColon, TermAst, LinesAst;
      var cond := ReadSemiExpression(lead);
      if cond.No? {
        return No(cond.error);
      }
      SkipColonToken();
      var body := ReadStatements();
      r := if body.Yes? then Yes(Case(cond.value, body.value)) else No(body.error);
    }

    method ReadBranchCases(lead: string) returns (r: Answer<seq<Case>>)
      requires Stream(Remaining())
      modifies this
      ensures Reads(CasesOf(lead, ParseCases(old(Remaining()))), Remaining(), r)
      decreases |Remaining()|, 6
    {
      hide ParseCase, ParseCases, CasesAst, CaseAst;
      ghost var s0 := Remaining();
      CasesStep(lead, s0);
      var first := ReadBranchCase(lead);
      if first.No? {
        return No(first.error);
      }
      var cases := [first.value];
      var t := PeekNextToken();
      while t.CASE_END?
        invariant Stream(Remaining()) && t == Remaining()[0] && |Remaining()| < |s0|
        invariant CasesOf(lead, ParseCases(s0)) == Prefix(cases, MoreCases(lead, Remaining()))
        decreases |Remaining()|
      {
        IgnoreNextToken();
        CasesStep(lead, Remaining());
        var c := ReadBranchCase(lead);
        if c.No? {
          return No(c.error);
        }
        PrefixMore(cases, [c.value], MoreCases(lead, Remaining()));
        cases := cases + [c.value];
        t := PeekNextToken();
      }
      if !t.BRANCH_ELSE? && !t.BRANCH_END? {
        return No(ExpectedCases);
      }
      assert cases + [] == cases;
      r := Yes(cases);
    }

    method ReadBranchElse() returns (r: Answer<Ast.Else>)
      requires Stream(Remaining()) && (Remaining()[0].BRANCH_ELSE? || Remaining()[0].BRANCH_END?)
      modifies this
      ensures Reads(Map(ParseOtherwise(old(Remaining())), OtherwiseAst), Remaining(), r)
      decreases |Remaining()|, 5
    {
      hide ParseText, SkipColon, LinesAst;
      var t := GetNextToken();
      if t.BRANCH_END? {
        return Yes(NoElse);
      }
      SkipColonToken();
      var body := ReadStatements();
      if body.No? {
        return No(body.error);
      }
      t := GetNextToken();
      r := if t.BRANCH_END? then Yes(Else(body.value)) else No(ExpectedBranchEnd);
    }

    method ReadBranchStatement() returns (r: Answer<Stmt>)
      requires Stream(Remaining()) && Remaining()[0].BRANCH_CONDITION?
      modifies this
      ensures Reads(Map(ParseBranch(old(Remaining())), SentenceAst), Remaining(), r)
      decreases |Remaining()|, 1
    {
      hide ParseVariable, ParseCases, ParseOtherwise, CasesAst, OtherwiseAst;
      IgnoreNextToken();
      var lead := ReadVariable();
      if lead.No? {
        return No(lead.error);
      }
      var t := GetNextToken();
      if !t.BRANCH_BEGIN? {
        return No(ExpectedBranchBegin);
      }
      var cases := ReadBranchCases(lead.value);
      if cases.No? {
        return No(cases.error);
      }
      var els := ReadBranchElse();
      r := if els.Yes? then Yes(Branch(lead.value, cases.value, els.value)) else No(els.error);
    }

    // ----- functions and modules -----

    method ReadParameters() returns (r: Answer<seq<Param>>)
      requires Stream(Remaining())
      modifies this
      ensures Reads(Map(ParseParams(old(Remaining())), ParamsAst), Remaining(), r)
    {
      hide ParseParams, ParamsAst, ParseVariable, ParseType;
      ghost var s0 := Remaining();
      var params: seq<Param> := [];
      var done := false;
      PrefixNone(Map(ParseParams(s0), ParamsAst));
      while !done
        invariant !done ==> Stream(Remaining()) && |Remaining()| <= |s0|
        invariant !done ==> Map(ParseParams(s0), ParamsAst) == Prefix(params, Map(ParseParams(Remaining()), ParamsAst))
        invariant done ==> Map(ParseParams(s0), ParamsAst) == Ok(params, Remaining())
        decreases !done, |Remaining()|
      {
        ParamsStep(Remaining());
        var v := ReadVariable();
        if v.No? {
          return No(v.error);
        }
        var ty := ReadType();
        if ty.No? {
          return No(ty.error);
        }
        var p := Param(v.value, ty.value);
        var t := GetNextToken();
        if t.FUN_END? {
          done := true;
        } else if t.COMMA? {
          PrefixMore(params, [p], Map(ParseParams(Remaining()), ParamsAst));
        } else {
          return No(ExpectedMoreParameters);
        }
        params := params + [p];
      }
      r := Yes(params);
    }

    method ReadFunction() returns (r: Answer<Function>)
      requires Stream(Remaining()) && Remaining()[0].FUN_DECL?
      modifies this
      ensures Reads(Map(ParseFunction(old(Remaining())), FunctionAst), Remaining(), r)
    {
      hide ParseType, ParseParams, ParseText, ParamsAst, LinesAst, Remaining, After;
      IgnoreNextToken();
      var ret := VarType(VOID, false);
      var t := PeekNextToken();
      if t.STAR? || t.TYPENAME? {
        var ty := ReadType();
        if ty.No? {
          return No(ty.error);
        }
        ret := ty.value;
      }
      t := GetNextToken();
      if !t.IDENTIFIER? {
        return No(ExpectedFunctionName);
      }
      var name := t.id;
      var params: seq<Param> := [];
      t := GetNextToken();
      if t.FUN_PARAMS? {
        var ps := ReadParameters();
        if ps.No? {
          return No(ps.error);
        }
        params := ps.value;
      } else if !t.FUN_END? {
        return No(ExpectedParametersOrBody);
      } else {
        NoParams();
      }
      var body := ReadStatements();
      r := if body.Yes? then Yes(Function(name, ret, params, body.value)) else No(body.error);
    }

    method ReadFunctions() returns (r: Answer<seq<Function>>)
      requires Stream(Remaining())
      modifies this
      ensures Reads(Map(ParseFunctions(old(Remaining())), FunctionsAst), Remaining(), r)
    {
      hide ParseFunctions, ParseFunction, FunctionsAst, FunctionAst;
      ghost var s0 := Remaining();
      var functions: seq<Function> := [];
      PrefixNone(Map(ParseFunctions(s0), FunctionsAst));
      var t := PeekNextToken();
      while t.FUN_DECL?
        invariant Stream(Remaining()) && t == Remaining()[0] && |Remaining()| <= |s0|
        invariant Map(ParseFunctions(s0), FunctionsAst) == Prefix(functions, Map(ParseFunctions(Remaining()), FunctionsAst))
        decreases |Remaining()|
      {
        FunctionsStep(Remaining());
        var f := ReadFunction();
        if f.No? {
          return No(f.error);
        }
        PrefixMore(functions, [f.value], Map(ParseFunctions(Remaining()), FunctionsAst));
        functions := functions + [f.value];
        t := PeekNextToken();
      }
      FunctionsStep(Remaining());
      assert functions + [] == functions;
      r := Yes(functions);
    }

    method ReadEntryPoint() returns (r: Answer<Function>)
      requires Stream(Remaining()) && Remaining()[0].ENTRY_POINT?
      modifies this
      ensures Reads(Map(ParseText(After(old(Remaining()))), EntryAst), Remaining(), r)
    {
      hide ParseText, LinesAst;
      IgnoreNextToken();
      var body := ReadStatements();
      r := if body.Yes? then Yes(Function("", VarType(BaseType.INTEGER, false), [], body.value)) else No(body.error);
    }

    /** On every stream the parser stops with a module or an error, and a module is returned
        only when the stream is exhausted. */
    method ReadModule() returns (r: Answer<Module>)
      requires Stream(Remaining())
      modifies this
      ensures Reads(Map(ParseModule(old(Remaining())), ModuleAst), Remaining(), r)
      ensures r.Yes? ==> Remaining() == [] && current == None
    {
      hide ParseFunctions, ParseText, FunctionsAst, EntryAst;
      ghost var before := ParseFunctions(Remaining());
      var functions := ReadFunctions();
      if functions.No? {
        return No(functions.error);
      }
      var entry: Option<Function> := None;
      var t := PeekNextToken();
      if t.ENTRY_POINT? {
        var e := ReadEntryPoint();
        if e.No? {
          return No(e.error);
        }
        entry := Some(e.value);
      }
      ghost var after := ParseFunctions(Remaining());
      var more := ReadFunctions();
      if more.No? {
        return No(more.error);
      }
      t := GetNextToken();
      if !t.END? {
        return No(ExpectedEndOfFile);
      }
      FunctionsAstJoin(before.value, after.value);
      r := Yes(Module(functions.value + more.value, entry));
    }
  }

  lemma StepHasSentence(t: Step)
    ensures StepAst(t).Some? <==> t.s.Some?
  {
  }

  lemma EmptyBody(body: seq<Stmt>)
    ensures LinesAst([]) == [] && body + [] == body
  {
  }

  lemma NoParams()
    ensures ParamsAst([]) == []
  {
  }
}
