/** The parser accepts all of the grammar: from the tokens of a canonical module it gets
    back exactly that module, although statements have no terminators and expressions no
    parentheses. */
module Completeness {
  import opened Ast
  import opened Grammar
  import opened Parsing
  import opened Sequences
  import Soundness

  lemma Push(t: Token, s: seq<Token>)
    requires Stream(s) && !t.IsFinal()
    ensures Stream([t] + s) && After([t] + s) == s && ([t] + s)[0] == t
  {
    assert ([t] + s)[1..] == s;
  }

  // ----- names and types -----

  lemma VariableComplete(v: Name, rest: seq<Token>)
    requires Stream(rest)
    ensures var s := NameTokens(v) + rest; Stream(s) && ParseVariable(s) == Ok(v, rest) && s[0].StartsTerm()
  {
    Push(IDENTIFIER(v.id), rest);
    if v.article {
      Push(ARTICLE, [IDENTIFIER(v.id)] + rest);
      Assoc([ARTICLE], [IDENTIFIER(v.id)], rest);
    } else {
      assert [] + [IDENTIFIER(v.id)] == [IDENTIFIER(v.id)];
    }
  }

  lemma TypeComplete(t: VarType, rest: seq<Token>)
    requires Stream(rest)
    ensures var s := TypeTokens(t) + rest; Stream(s) && ParseType(s) == Ok(t, rest) && (s[0].STAR? || s[0].TYPENAME?)
  {
    Push(TYPENAME(t.base), rest);
    if t.pointer {
      Push(STAR, [TYPENAME(t.base)] + rest);
      Assoc([STAR], [TYPENAME(t.base)], rest);
    } else {
      assert [] + [TYPENAME(t.base)] == [TYPENAME(t.base)];
    }
  }

  // ----- expressions -----

  /** Every canonical tree is recovered from its flattening. */
  lemma {:induction false} TermComplete(e: Term, rest: seq<Token>, p: nat)
    requires Canonical(e) && Root(e) >= p && Stream(rest) && !Continues(rest, p)
    ensures var s := TermTokens(e) + rest; Stream(s) && MaybeTerm(s, p) == Ok(Some(e), rest)
    decreases e, 2
  {
    hide TermTokens, MaybeTerm, Canonical, Root;
    ClimbsTo(e, rest, p);
  }

  /** Climbing reaches `e` before it looks at what follows. */
  lemma {:induction false} ClimbsTo(e: Term, rest: seq<Token>, p: nat)
    requires Canonical(e) && Root(e) >= p && Stream(rest) && !Continues(rest, Root(e) + 1)
    ensures var s := TermTokens(e) + rest; Stream(s) && MaybeTerm(s, p) == Maybe(Climb(e, rest, p))
    decreases e, 1
  {
    if e.Infix? {
      hide Climb, MaybeTerm, Canonical, TermTokens, Root;
      var s2 := TermTokens(e.right) + rest;
      InfixParts(e);
      TermComplete(e.right, rest, Priority(e.op) + 1);
      Push(OP(e.op), s2);
      ClimbsTo(e.left, [OP(e.op)] + s2, p);
      ClimbStep(e.left, e.op, e.right, s2, rest, p);
      Assoc(TermTokens(e.left) + [OP(e.op)], TermTokens(e.right), rest);
      Assoc(TermTokens(e.left), [OP(e.op)], s2);
    } else {
      hide MaybeOperand, Climb, Canonical, TermTokens;
      OperandComplete(e, rest);
    }
  }

  lemma InfixParts(e: Term)
    requires e.Infix? && Canonical(e)
    ensures Canonical(e.left) && Canonical(e.right) && Root(e.left) >= Priority(e.op) && Root(e.right) > Priority(e.op)
    ensures Root(e) == Priority(e.op) && TermTokens(e) == TermTokens(e.left) + [OP(e.op)] + TermTokens(e.right)
  {
  }

  /** One operator and its right side. */
  lemma ClimbStep(lhs: Term, op: Op, rhs: Term, s: seq<Token>, rest: seq<Token>, p: nat)
    requires Stream(s) && Stream([OP(op)] + s) && Priority(op) >= p
    requires MaybeTerm(s, Priority(op) + 1) == Ok(Some(rhs), rest)
    ensures Climb(lhs, [OP(op)] + s, p) == Climb(Infix(op, lhs, rhs), rest, p)
  {
    hide MaybeTerm;
    assert After([OP(op)] + s) == s;
  }

  lemma {:induction false} OperandComplete(e: Term, rest: seq<Token>)
    requires Canonical(e) && !e.Infix? && Stream(rest)
    ensures var s := TermTokens(e) + rest; Stream(s) && MaybeOperand(s) == Ok(Some(e), rest)
    decreases e, 0
  {
    hide ParseVariable, ParseCall, ArgTokens, NameTokens;
    match e
    case Var(v) => VariableComplete(v, rest);
                   FirstOfName(v, rest);
    case Int(n) => Push(Token.INTEGER(n), rest);
    case Float(b) => Push(Token.FLOAT(b), rest);
    case Invoke(fn, args) => InvokeComplete(fn, args, rest);
  }

  lemma {:induction false} InvokeComplete(fn: string, args: seq<Term>, rest: seq<Token>)
    requires AllCanonical(args) && Stream(rest)
    ensures var s := [FUN_CALL, IDENTIFIER(fn)] + ArgTokens(args) + rest;
            Stream(s) && s[0].FUN_CALL? && ParseCall(s) == Ok(Invoke(fn, args), rest)
    decreases args, 2
  {
    hide ParseArgs, ArgTokens;
    ArgsComplete(args, rest);
    var s1 := ArgTokens(args) + rest;
    Push(IDENTIFIER(fn), s1);
    Push(FUN_CALL, [IDENTIFIER(fn)] + s1);
    assert [FUN_CALL] + [IDENTIFIER(fn)] == [FUN_CALL, IDENTIFIER(fn)];
    Assoc([FUN_CALL], [IDENTIFIER(fn)], s1);
    Assoc([FUN_CALL, IDENTIFIER(fn)], ArgTokens(args), rest);
  }

  lemma FirstOfName(v: Name, rest: seq<Token>)
    ensures var t := (NameTokens(v) + rest)[0]; t.ARTICLE? || t.IDENTIFIER?
  {
  }

  lemma {:induction false} ArgsComplete(args: seq<Term>, rest: seq<Token>)
    requires AllCanonical(args) && Stream(rest)
    ensures var s := ArgTokens(args) + rest; Stream(s) && ParseArgs(s) == Ok(args, rest)
    decreases args, 1
  {
    hide ParseMoreArgs, MoreArgTokens, AllCanonical;
    if args == [] {
      Push(FUN_END, rest);
    } else {
      MoreArgsComplete(args, rest);
      Push(FUN_PARAMS, MoreArgTokens(args) + rest);
      Assoc([FUN_PARAMS], MoreArgTokens(args), rest);
    }
  }

  lemma {:induction false} MoreArgsComplete(args: seq<Term>, rest: seq<Token>)
    requires args != [] && AllCanonical(args) && Stream(rest)
    ensures var s := MoreArgTokens(args) + rest; Stream(s) && ParseMoreArgs(s) == Ok(args, rest)
    decreases args, 0
  {
    hide ParseTerm, TermTokens, Canonical, After;
    if |args| == 1 {
      Push(FUN_END, rest);
      ParsedTermComplete(args[0], [FUN_END] + rest);
      Assoc(TermTokens(args[0]), [FUN_END], rest);
      assert [args[0]] == args;
    } else {
      var s1 := MoreArgTokens(args[1..]) + rest;
      MoreArgsComplete(args[1..], rest);
      Push(COMMA, s1);
      ParsedTermComplete(args[0], [COMMA] + s1);
      Assoc(TermTokens(args[0]) + [COMMA], MoreArgTokens(args[1..]), rest);
      Assoc(TermTokens(args[0]), [COMMA], s1);
      assert [args[0]] + args[1..] == args;
    }
  }

  lemma {:induction false} ParsedTermComplete(e: Term, rest: seq<Token>)
    requires Canonical(e) && Stream(rest) && !rest[0].OP?
    ensures var s := TermTokens(e) + rest; Stream(s) && ParseTerm(s) == Ok(e, rest) && s[0].StartsTerm()
    decreases e, 3
  {
    hide MaybeTerm;
    TermComplete(e, rest, 0);
  }

  // ----- statements -----

  /** A text can go on or end here; in particular every statement can end before this. */
  predicate Opens(s: seq<Token>) { Stream(s) && (s[0].COMMA? || s[0].StartsSentence() || s[0].EndsText()) }

  lemma {:induction false} LineComplete(l: Line, rest: seq<Token>)
    requires CanonicalLine(l) && Opens(rest)
    ensures var s := LineTokens(l) + rest;
            Opens(s) && MaybeLine(s) == Ok(Step(l.commas, Some(l.s)), rest) && !s[0].EndsText()
    decreases l, 1
  {
    hide MaybeSentence, SentenceTokens, CanonicalSentence;
    SentenceComplete(l.s, rest);
    AfterCommas(l.commas, SentenceTokens(l.s) + rest);
    Assoc(Commas(l.commas), SentenceTokens(l.s), rest);
  }

  lemma {:induction false} AfterCommas(n: nat, s: seq<Token>)
    requires Stream(s) && !s[0].COMMA? && MaybeSentence(s).Ok?
    ensures var s' := Commas(n) + s;
            && Stream(s') && (n > 0 ==> s'[0].COMMA?) && (n == 0 ==> s' == s)
            && MaybeLine(s') == Ok(Step(n, MaybeSentence(s).value), MaybeSentence(s).rest)
  {
    hide MaybeSentence, MaybeLine, Stream;
    if n == 0 {
      assert [] + s == s;
      NoComma(s);
    } else {
      AfterCommas(n - 1, s);
      OneComma(Commas(n - 1) + s);
      Assoc([COMMA], Commas(n - 1), s);
    }
  }

  lemma NoComma(s: seq<Token>)
    requires Stream(s) && !s[0].COMMA? && MaybeSentence(s).Ok?
    ensures MaybeLine(s) == Ok(Step(0, MaybeSentence(s).value), MaybeSentence(s).rest)
  {
    hide MaybeSentence;
  }

  lemma OneComma(s: seq<Token>)
    requires Stream(s) && MaybeLine(s).Ok?
    ensures var s', m := [COMMA] + s, MaybeLine(s);
            Stream(s') && s'[0].COMMA? && MaybeLine(s') == Ok(m.value.(commas := m.value.commas + 1), m.rest)
  {
    hide MaybeSentence;
    Push(COMMA, s);
  }

  lemma {:induction false} SentenceComplete(x: Sentence, rest: seq<Token>)
    requires CanonicalSentence(x) && Opens(rest)
    ensures var s := SentenceTokens(x) + rest;
            Stream(s) && MaybeSentence(s) == Ok(Some(x), rest) && s[0].StartsSentence()
    decreases x, 2
  {
    hide ParseAssert, ParseInput, ParseBranch, ParseVardecl, ParseLoop, ParseReturn, MaybeExpressionStatement, SentenceTokens,
         CanonicalSentence, MaybeSentence, Opens;
    OpensStops(rest);
    match x {
      case Asserting(_) => AssertComplete(x, rest);
      case Reading(_) => InputComplete(x, rest);
      case Aborting => AbortComplete(rest);
      case Branching(_, _, _) => BranchComplete(x, rest);
      case Declaring(_, _, _) => VardeclComplete(x, rest);
      case Looping(_, _) => LoopComplete(x, rest);
      case Returning(_) => ReturnComplete(x, rest);
      case _ => ExpressionStatementComplete(x, rest);
    }
    Dispatch(SentenceTokens(x) + rest);
  }

  lemma AbortComplete(rest: seq<Token>)
    requires Stream(rest)
    ensures var s := SentenceTokens(Aborting) + rest; Stream(s) && MaybeSentence(s) == Ok(Some(Aborting), rest) && s[0].ABORT?
  {
    Push(ABORT, rest);
  }

  lemma ExpressionStatementComplete(x: Sentence, rest: seq<Token>)
    requires (x.Printing? || x.Assigning? || x.Calling?) && CanonicalSentence(x) && Opens(rest)
    ensures var s := SentenceTokens(x) + rest;
            Stream(s) && MaybeExpressionStatement(s) == Ok(Some(x), rest) && s[0].StartsTerm()
  {
    hide MaybeTerm, ParseTerm, ArgTokens, Stream, NameTokens, Opens;
    OpensStops(rest);
    match x
    case Printing(e) =>
      Push(PRINT, rest);
      TermComplete(e, [PRINT] + rest, 0);
      Assoc(TermTokens(e), [PRINT], rest);
    case Assigning(v, e) => AssignComplete(v, e, rest);
    case Calling(fn, args) => TermComplete(Invoke(fn, args), rest, 0);
  }

  lemma AssignComplete(v: Name, e: Term, rest: seq<Token>)
    requires Canonical(e) && Stream(rest) && !rest[0].OP?
    ensures var s := SentenceTokens(Assigning(v, e)) + rest;
            Stream(s) && MaybeExpressionStatement(s) == Ok(Some(Assigning(v, e)), rest) && s[0].StartsTerm()
  {
    hide MaybeTerm, ParseTerm, ArgTokens, Stream, NameTokens, Canonical;
    var s2 := TermTokens(e) + rest;
    ParsedTermComplete(e, rest);
    Push(ASSIGN, s2);
    PlainName(v);
    TermComplete(Var(v), [ASSIGN] + s2, 0);
    Assoc(NameTokens(v) + [ASSIGN], TermTokens(e), rest);
    Assoc(NameTokens(v), [ASSIGN], s2);
  }

  lemma PlainName(v: Name)
    ensures Canonical(Var(v))
  {
  }

  lemma OpensStops(s: seq<Token>)
    requires Opens(s)
    ensures Stream(s) && s != [] && !s[0].OP? && !s[0].PRINT? && !s[0].ASSIGN? && !s[0].COLON?
  {
  }

  lemma AssertComplete(x: Sentence, rest: seq<Token>)
    requires x.Asserting? && CanonicalSentence(x) && Stream(rest)
    ensures var s := SentenceTokens(x) + rest; Stream(s) && s[0].ASSERT? && ParseAssert(s) == Ok(x, rest)
  {
    hide ParseTerm, TermTokens, Canonical;
    var s2 := [BANG] + rest;
    Push(BANG, rest);
    ParsedTermComplete(x.e, s2);
    Push(ASSERT, TermTokens(x.e) + s2);
    Assoc([ASSERT] + TermTokens(x.e), [BANG], rest);
    Assoc([ASSERT], TermTokens(x.e), s2);
  }

  lemma InputComplete(x: Sentence, rest: seq<Token>)
    requires x.Reading? && Stream(rest)
    ensures var s := SentenceTokens(x) + rest; Stream(s) && s[0].INPUT? && ParseInput(s) == Ok(x, rest)
  {
    hide ParseVariable, NameTokens;
    VariableComplete(x.v, rest);
    Push(INPUT, NameTokens(x.v) + rest);
    Assoc([INPUT], NameTokens(x.v), rest);
  }

  lemma InitComplete(init: Option<Term>, rest: seq<Token>)
    requires MaybeCanonical(init) && Opens(rest)
    ensures var s := InitTokens(init) + rest; Stream(s) && MaybeInit(s) == Ok(init, rest)
  {
    hide ParseTerm, TermTokens, Canonical;
    match init
    case None => assert [] + rest == rest;
    case Some(e) =>
      ParsedTermComplete(e, rest);
      Push(ASSIGN, TermTokens(e) + rest);
      Assoc([ASSIGN], TermTokens(e), rest);
  }

  lemma VardeclComplete(x: Sentence, rest: seq<Token>)
    requires x.Declaring? && CanonicalSentence(x) && Opens(rest)
    ensures var s := SentenceTokens(x) + rest; Stream(s) && s[0].VARDECL? && ParseVardecl(s) == Ok(x, rest)
  {
    hide ParseVariable, ParseType, MaybeInit, NameTokens, TypeTokens, InitTokens, MaybeCanonical, Opens;
    InitComplete(x.init, rest);
    var s4 := InitTokens(x.init) + rest;
    TypeComplete(x.ty, s4);
    var s3 := TypeTokens(x.ty) + s4;
    Push(COMMA, s3);
    VariableComplete(x.v, [COMMA] + s3);
    Push(VARDECL, NameTokens(x.v) + ([COMMA] + s3));
    Assoc([VARDECL] + NameTokens(x.v) + [COMMA] + TypeTokens(x.ty), InitTokens(x.init), rest);
    Assoc([VARDECL] + NameTokens(x.v) + [COMMA], TypeTokens(x.ty), s4);
    Assoc([VARDECL] + NameTokens(x.v), [COMMA], s3);
    Assoc([VARDECL], NameTokens(x.v), [COMMA] + s3);
  }

  lemma ValueComplete(value: Option<Term>, rest: seq<Token>)
    requires MaybeCanonical(value) && Stream(rest) && rest[0].BANG?
    ensures var s := ValueTokens(value) + rest; Stream(s) && MaybeValue(s) == Ok(value, rest)
  {
    hide ParseTerm, TermTokens, Canonical;
    match value
    case None => assert [] + rest == rest;
    case Some(e) => ParsedTermComplete(e, rest);
  }

  lemma ReturnComplete(x: Sentence, rest: seq<Token>)
    requires x.Returning? && CanonicalSentence(x) && Stream(rest)
    ensures var s := SentenceTokens(x) + rest; Stream(s) && s[0].RETURN? && ParseReturn(s) == Ok(x, rest)
  {
    hide MaybeValue, ValueTokens, MaybeCanonical;
    var s2 := [BANG] + rest;
    Push(BANG, rest);
    ValueComplete(x.value, s2);
    Push(RETURN, ValueTokens(x.value) + s2);
    Assoc([RETURN] + ValueTokens(x.value), [BANG], rest);
    Assoc([RETURN], ValueTokens(x.value), s2);
  }

  lemma {:induction false} LoopComplete(x: Sentence, rest: seq<Token>)
    requires x.Looping? && CanonicalSentence(x) && Opens(rest)
    ensures var s := SentenceTokens(x) + rest; Stream(s) && s[0].LOOP_BEGIN? && ParseLoop(s) == Ok(x, rest)
    decreases x, 1
  {
    hide ParseLoopBody, ParseTerm, LinesTokens, TermTokens, CanonicalLines, Canonical;
    ParsedTermComplete(x.cond, rest);
    var s3 := TermTokens(x.cond) + rest;
    Push(LOOP_CONDITION, s3);
    var s2 := [LOOP_CONDITION] + s3;
    LoopBodyComplete(x.body, s2);
    Push(LOOP_BEGIN, LinesTokens(x.body) + s2);
    Assoc([LOOP_BEGIN] + LinesTokens(x.body) + [LOOP_CONDITION], TermTokens(x.cond), rest);
    Assoc([LOOP_BEGIN] + LinesTokens(x.body), [LOOP_CONDITION], s3);
    Assoc([LOOP_BEGIN], LinesTokens(x.body), s2);
  }

  lemma {:induction false} LoopBodyComplete(ls: seq<Line>, rest: seq<Token>)
    requires CanonicalLines(ls) && Stream(rest) && rest[0].LOOP_CONDITION?
    ensures var s := LinesTokens(ls) + rest; Opens(s) && ParseLoopBody(s) == Ok(ls, After(rest))
    decreases ls
  {
    hide MaybeLine, LineTokens, CanonicalLine;
    if ls == [] {
      assert [] + rest == rest;
    } else {
      var s1 := LinesTokens(ls[1..]) + rest;
      LoopBodyComplete(ls[1..], rest);
      LineComplete(ls[0], s1);
      Assoc(LineTokens(ls[0]), LinesTokens(ls[1..]), rest);
      assert [ls[0]] + ls[1..] == ls;
    }
  }

  lemma {:induction false} TextComplete(t: Text, rest: seq<Token>)
    requires CanonicalText(t) && Stream(rest) && rest[0].EndsText()
    ensures var s := TextTokens(t) + rest; Opens(s) && ParseText(s) == Ok(t, rest)
    decreases t
  {
    hide ParseText, LinesTokens, CanonicalLines;
    LinesComplete(t.lines, t.commas, rest);
    Assoc(LinesTokens(t.lines), Commas(t.commas), rest);
  }

  lemma {:induction false} LinesComplete(ls: seq<Line>, n: nat, rest: seq<Token>)
    requires CanonicalLines(ls) && Stream(rest) && rest[0].EndsText()
    ensures var s := LinesTokens(ls) + (Commas(n) + rest); Opens(s) && ParseText(s) == Ok(Text(ls, n), rest)
    decreases ls
  {
    hide MaybeLine, LineTokens, CanonicalLine, Commas;
    var s2 := Commas(n) + rest;
    if ls == [] {
      NothingHere(rest);
      AfterCommas(n, rest);
      assert [] + s2 == s2;
    } else {
      var s1 := LinesTokens(ls[1..]) + s2;
      LinesComplete(ls[1..], n, rest);
      LineComplete(ls[0], s1);
      Assoc(LineTokens(ls[0]), LinesTokens(ls[1..]), s2);
      assert [ls[0]] + ls[1..] == ls;
    }
  }

  lemma NothingHere(s: seq<Token>)
    requires Stream(s) && s[0].EndsText()
    ensures MaybeSentence(s) == Ok(None, s)
  {
    hide MaybeSentence, Climb, ParseCall, ParseVariable, ParseTerm;
    Dispatch(s);
    assert MaybeOperand(s) == Ok(None, s);
  }

  lemma ColonComplete(colon: bool, rest: seq<Token>)
    requires Opens(rest)
    ensures var s := Optional(colon, COLON) + rest; Stream(s) && SkipColon(s) == (colon, rest) && !s[0].OP?
  {
    if colon {
      Push(COLON, rest);
    } else {
      assert [] + rest == rest;
    }
  }

  lemma OperatorComplete(op: Option<Op>, rest: seq<Token>)
    requires Stream(rest) && !rest[0].OP?
    ensures var s := OperatorTokens(op) + rest; Stream(s) && MaybeOperator(s) == (op, rest)
  {
    match op
    case None => assert [] + rest == rest;
    case Some(o) => Push(OP(o), rest);
  }

  lemma {:induction false} CaseComplete(c: Alternative, rest: seq<Token>)
    requires CanonicalCase(c) && Stream(rest) && rest[0].EndsText()
    ensures var s := CaseTokens(c) + rest; Stream(s) && ParseCase(s) == Ok(c, rest)
    decreases c
  {
    hide MaybeOperator, ParseTerm, SkipColon, ParseText, OperatorTokens, TermTokens, Optional, TextTokens, Canonical, CanonicalText;
    TextComplete(c.body, rest);
    var s3 := TextTokens(c.body) + rest;
    ColonComplete(c.colon, s3);
    var s2 := Optional(c.colon, COLON) + s3;
    ParsedTermComplete(c.rhs, s2);
    var s1 := TermTokens(c.rhs) + s2;
    OperatorComplete(c.op, s1);
    Assoc(OperatorTokens(c.op) + TermTokens(c.rhs) + Optional(c.colon, COLON), TextTokens(c.body), rest);
    Assoc(OperatorTokens(c.op) + TermTokens(c.rhs), Optional(c.colon, COLON), s3);
    Assoc(OperatorTokens(c.op), TermTokens(c.rhs), s2);
  }

  lemma {:induction false} CasesComplete(cs: seq<Alternative>, rest: seq<Token>)
    requires cs != [] && CanonicalCases(cs) && Stream(rest) && (rest[0].BRANCH_ELSE? || rest[0].BRANCH_END?)
    ensures var s := CasesTokens(cs) + rest; Stream(s) && ParseCases(s) == Ok(cs, rest)
    decreases cs
  {
    hide ParseCase, CaseTokens, CanonicalCase;
    if |cs| == 1 {
      CaseComplete(cs[0], rest);
      assert [cs[0]] == cs;
    } else {
      var s1 := CasesTokens(cs[1..]) + rest;
      CasesComplete(cs[1..], rest);
      Push(CASE_END, s1);
      CaseComplete(cs[0], [CASE_END] + s1);
      Assoc(CaseTokens(cs[0]) + [CASE_END], CasesTokens(cs[1..]), rest);
      Assoc(CaseTokens(cs[0]), [CASE_END], s1);
      assert [cs[0]] + cs[1..] == cs;
    }
  }

  lemma {:induction false} OtherwiseComplete(o: Otherwise, rest: seq<Token>)
    requires CanonicalOtherwise(o) && Stream(rest) && rest[0].BRANCH_END?
    ensures var s := OtherwiseTokens(o) + rest;
            Stream(s) && (s[0].BRANCH_ELSE? || s[0].BRANCH_END?) && ParseOtherwise(s) == Ok(o, After(rest))
    decreases o
  {
    hide SkipColon, ParseText, Optional, TextTokens, CanonicalText;
    match o
    case Nothing => assert [] + rest == rest;
    case Otherwise(colon, body) =>
      TextComplete(body, rest);
      var s2 := TextTokens(body) + rest;
      ColonComplete(colon, s2);
      var s1 := Optional(colon, COLON) + s2;
      Push(BRANCH_ELSE, s1);
      Assoc([BRANCH_ELSE] + Optional(colon, COLON), TextTokens(body), rest);
      Assoc([BRANCH_ELSE], Optional(colon, COLON), s2);
  }

  lemma {:induction false} BranchComplete(x: Sentence, rest: seq<Token>)
    requires x.Branching? && CanonicalSentence(x) && Stream(rest)
    ensures var s := SentenceTokens(x) + rest; Stream(s) && s[0].BRANCH_CONDITION? && ParseBranch(s) == Ok(x, rest)
    decreases x, 1
  {
    hide ParseVariable, ParseCases, ParseOtherwise, NameTokens, CasesTokens, OtherwiseTokens, CanonicalCases, CanonicalOtherwise;
    Push(BRANCH_END, rest);
    var s4 := [BRANCH_END] + rest;
    OtherwiseComplete(x.otherwise, s4);
    var s3 := OtherwiseTokens(x.otherwise) + s4;
    CasesComplete(x.cases, s3);
    var s2 := CasesTokens(x.cases) + s3;
    Push(BRANCH_BEGIN, s2);
    VariableComplete(x.lead, [BRANCH_BEGIN] + s2);
    Push(BRANCH_CONDITION, NameTokens(x.lead) + ([BRANCH_BEGIN] + s2));
    var start := [BRANCH_CONDITION] + NameTokens(x.lead) + [BRANCH_BEGIN];
    Assoc(start + CasesTokens(x.cases) + OtherwiseTokens(x.otherwise), [BRANCH_END], rest);
    Assoc(start + CasesTokens(x.cases), OtherwiseTokens(x.otherwise), s4);
    Assoc(start, CasesTokens(x.cases), s3);
    Assoc([BRANCH_CONDITION] + NameTokens(x.lead), [BRANCH_BEGIN], s2);
    Assoc([BRANCH_CONDITION], NameTokens(x.lead), [BRANCH_BEGIN] + s2);
  }

  // ----- functions and modules -----

  lemma ParamComplete(p: ParamText, rest: seq<Token>)
    requires Stream(rest)
    ensures var s := ParamTokens(p) + rest; Stream(s) && ParseParam(s) == Ok(p, rest)
  {
    hide ParseVariable, ParseType, NameTokens, TypeTokens;
    TypeComplete(p.ty, rest);
    VariableComplete(p.v, TypeTokens(p.ty) + rest);
    Assoc(NameTokens(p.v), TypeTokens(p.ty), rest);
  }

  lemma {:induction false} ParamsComplete(ps: seq<ParamText>, rest: seq<Token>)
    requires ps != [] && Stream(rest)
    ensures var s := MoreParamTokens(ps) + rest; Stream(s) && ParseParams(s) == Ok(ps, rest)
  {
    hide ParseParam, ParamTokens;
    if |ps| == 1 {
      Push(FUN_END, rest);
      ParamComplete(ps[0], [FUN_END] + rest);
      Assoc(ParamTokens(ps[0]), [FUN_END], rest);
      assert [ps[0]] == ps;
    } else {
      var s1 := MoreParamTokens(ps[1..]) + rest;
      ParamsComplete(ps[1..], rest);
      Push(COMMA, s1);
      ParamComplete(ps[0], [COMMA] + s1);
      Assoc(ParamTokens(ps[0]) + [COMMA], MoreParamTokens(ps[1..]), rest);
      Assoc(ParamTokens(ps[0]), [COMMA], s1);
      assert [ps[0]] + ps[1..] == ps;
    }
  }

  lemma ParamListComplete(ps: seq<ParamText>, rest: seq<Token>)
    requires Stream(rest)
    ensures var s := ParamListTokens(ps) + rest; Stream(s) && ParseParamList(s) == Ok(ps, rest)
  {
    hide ParseParams, MoreParamTokens;
    if ps == [] {
      Push(FUN_END, rest);
    } else {
      ParamsComplete(ps, rest);
      Push(FUN_PARAMS, MoreParamTokens(ps) + rest);
      Assoc([FUN_PARAMS], MoreParamTokens(ps), rest);
    }
  }

  lemma ResultComplete(t: Option<VarType>, rest: seq<Token>)
    requires Stream(rest) && rest[0].IDENTIFIER?
    ensures var s := ResultTokens(t) + rest; Stream(s) && MaybeType(s) == Ok(t, rest)
  {
    hide ParseType, TypeTokens;
    match t
    case None => assert [] + rest == rest;
    case Some(ty) => TypeComplete(ty, rest);
  }

  lemma FunctionComplete(f: FunctionText, rest: seq<Token>)
    requires CanonicalText(f.body) && Stream(rest) && rest[0].EndsText()
    ensures var s := FunctionTokens(f) + rest; Stream(s) && s[0].FUN_DECL? && ParseFunction(s) == Ok(f, rest)
  {
    hide MaybeType, ParseParamList, ParseText, ResultTokens, ParamListTokens, TextTokens, CanonicalText;
    TextComplete(f.body, rest);
    var s4 := TextTokens(f.body) + rest;
    ParamListComplete(f.params, s4);
    var s3 := ParamListTokens(f.params) + s4;
    Push(IDENTIFIER(f.name), s3);
    var s2 := [IDENTIFIER(f.name)] + s3;
    ResultComplete(f.ret, s2);
    Push(FUN_DECL, ResultTokens(f.ret) + s2);
    var start := [FUN_DECL] + ResultTokens(f.ret) + [IDENTIFIER(f.name)];
    Assoc(start + ParamListTokens(f.params), TextTokens(f.body), rest);
    Assoc(start, ParamListTokens(f.params), s4);
    Assoc([FUN_DECL] + ResultTokens(f.ret), [IDENTIFIER(f.name)], s3);
    Assoc([FUN_DECL], ResultTokens(f.ret), s2);
  }

  lemma {:induction false} FunctionsComplete(fs: seq<FunctionText>, rest: seq<Token>)
    requires CanonicalFunctions(fs) && Stream(rest) && rest[0].EndsText() && !rest[0].FUN_DECL?
    ensures var s := FunctionsTokens(fs) + rest;
            Stream(s) && ParseFunctions(s) == Ok(fs, rest) && s[0].EndsText() && (fs == [] ==> s == rest)
  {
    hide ParseFunction, FunctionTokens, CanonicalText;
    if fs == [] {
      assert [] + rest == rest;
    } else {
      var s1 := FunctionsTokens(fs[1..]) + rest;
      FunctionsComplete(fs[1..], rest);
      FunctionComplete(fs[0], s1);
      Assoc(FunctionTokens(fs[0]), FunctionsTokens(fs[1..]), rest);
      assert [fs[0]] + fs[1..] == fs;
    }
  }

  lemma EntryComplete(m: ModuleText, rest: seq<Token>)
    requires CanonicalModule(m) && rest == [END]
    ensures var s := EntryTokens(m) + rest;
            && Stream(s) && s[0].EndsText() && !s[0].FUN_DECL? && MaybeEntryPoint(s).Ok? && MaybeEntryPoint(s).value == m.entry
            && Stream(MaybeEntryPoint(s).rest) && ParseFunctions(MaybeEntryPoint(s).rest) == Ok(m.after, rest)
  {
    hide ParseText, TextTokens, CanonicalText, FunctionsTokens, ParseFunctions, CanonicalFunctions;
    FunctionsComplete(m.after, rest);
    match m.entry
    case None => assert [] + rest == rest;
    case Some(t) =>
      var s2 := FunctionsTokens(m.after) + rest;
      TextComplete(t, s2);
      Push(ENTRY_POINT, TextTokens(t) + s2);
      Assoc([ENTRY_POINT] + TextTokens(t), FunctionsTokens(m.after), rest);
      Assoc([ENTRY_POINT], TextTokens(t), s2);
  }

  lemma ModuleComplete(m: ModuleText)
    requires CanonicalModule(m)
    ensures Stream(ModuleTokens(m)) && ParseModule(ModuleTokens(m)) == Ok(m, [])
  {
    hide MaybeEntryPoint, EntryTokens, FunctionsTokens, ParseFunctions, CanonicalFunctions;
    var rest := [END];
    EntryComplete(m, rest);
    FunctionsComplete(m.before, EntryTokens(m) + rest);
    Assoc(FunctionsTokens(m.before), EntryTokens(m), rest);
  }

  // ----- the main results -----

  /** A stream is accepted exactly when it spells a canonical module, and the result is
      that module: the grammar is unambiguous and the parser decides it. */
  lemma AcceptsExactly(s: seq<Token>, m: ModuleText)
    requires Stream(s)
    ensures ParseModule(s) == Ok(m, []) <==> CanonicalModule(m) && s == ModuleTokens(m)
  {
    hide CanonicalModule, ModuleTokens, ParseModule;
    if ParseModule(s) == Ok(m, []) {
      Soundness.ModuleSound(s, m, []);
    }
    if CanonicalModule(m) && s == ModuleTokens(m) {
      ModuleComplete(m);
    }
  }

  /** No two canonical terms have the same tokens. */
  lemma TermsUnambiguous(e: Term, e': Term)
    requires Canonical(e) && Canonical(e') && TermTokens(e) == TermTokens(e')
    ensures e == e'
  {
    hide MaybeTerm, TermTokens, Canonical;
    TermComplete(e, [END], 0);
    TermComplete(e', [END], 0);
  }
}
