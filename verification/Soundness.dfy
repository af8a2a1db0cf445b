/** The parser accepts nothing but the grammar: what it returns is canonical and is spelled
    by exactly the tokens it took. */
module Soundness {
  import opened Ast
  import opened Grammar
  import opened Parsing
  import opened Sequences

  /** `toks` are the tokens taken from `s` when `rest` remains. */
  predicate Taken(s: seq<Token>, toks: seq<Token>, rest: seq<Token>) { s == toks + rest }

  lemma Start(s: seq<Token>, t: Token)
    requires Stream(s) && s[0] == t
    ensures Taken(s, [t], After(s))
  {
  }

  /** One more token is taken. */
  lemma Next(s: seq<Token>, a: seq<Token>, r: seq<Token>, t: Token)
    requires Taken(s, a, r) && Stream(r) && r[0] == t
    ensures Taken(s, a + [t], After(r))
  {
  }

  /** Some more tokens are taken. */
  lemma Then(s: seq<Token>, a: seq<Token>, r: seq<Token>, b: seq<Token>, r': seq<Token>)
    requires Taken(s, a, r) && Taken(r, b, r')
    ensures Taken(s, a + b, r')
  {
  }

  lemma NoTokens(s: seq<Token>)
    ensures Taken(s, [], s)
  {
  }

  // ----- names and types -----

  lemma VariableSound(s: seq<Token>, v: Name, r: seq<Token>)
    requires Stream(s) && ParseVariable(s) == Ok(v, r)
    ensures Taken(s, NameTokens(v), r)
  {
    hide Taken;
    Start(s, s[0]);
    if s[0].ARTICLE? {
      Next(s, [ARTICLE], After(s), IDENTIFIER(v.id));
    } else {
      assert [] + [IDENTIFIER(v.id)] == [IDENTIFIER(v.id)];
    }
  }

  lemma TypeSound(s: seq<Token>, t: VarType, r: seq<Token>)
    requires Stream(s) && ParseType(s) == Ok(t, r)
    ensures Taken(s, TypeTokens(t), r)
  {
    hide Taken;
    Start(s, s[0]);
    if s[0].STAR? {
      Next(s, [STAR], After(s), TYPENAME(t.base));
    } else {
      assert [] + [TYPENAME(t.base)] == [TYPENAME(t.base)];
    }
  }

  // ----- expressions -----

  /** `e` can be the left operand of whatever comes next. */
  predicate Climbable(e: Term, s: seq<Token>, p: nat)
    requires Stream(s)
  {
    Canonical(e) && Root(e) >= p && !Continues(s, Root(e) + 1)
  }

  /** Precedence climbing stops only where no operator of the priority comes next, and what
      it returns is the left-associative, stratified tree over exactly the tokens taken. */
  lemma {:induction false} TermSound(s: seq<Token>, p: nat, e: Term, r: seq<Token>)
    requires Stream(s) && MaybeTerm(s, p) == Ok(Some(e), r) && p <= 100
    ensures Taken(s, TermTokens(e), r) && Canonical(e) && Root(e) >= p && !Continues(r, p)
    ensures Climbable(e, r, p)
    decreases |s|, 2
  {
    hide Taken, Continues, TermTokens, Canonical, Root;
    var a := MaybeOperand(s);
    OperandSound(s, a.value.value, a.rest);
    OperandClimbs(a.value.value, a.rest, p);
    ClimbSound(a.value.value, a.rest, p, e, r);
    Climbed(s, TermTokens(a.value.value), a.rest, TermTokens(e), r);
  }

  lemma OperandClimbs(e: Term, s: seq<Token>, p: nat)
    requires Stream(s) && Canonical(e) && Root(e) == 100 && p <= 100
    ensures Climbable(e, s, p)
  {
  }

  lemma Climbed(s: seq<Token>, a: seq<Token>, r: seq<Token>, b: seq<Token>, r': seq<Token>)
    requires Taken(s, a, r) && Taken(a + r, b, r')
    ensures Taken(s, b, r')
  {
  }

  lemma {:induction false} ClimbSound(lhs: Term, s: seq<Token>, p: nat, e: Term, r: seq<Token>)
    requires Stream(s) && Climb(lhs, s, p) == Ok(e, r) && p <= 100 && Climbable(lhs, s, p)
    ensures Taken(TermTokens(lhs) + s, TermTokens(e), r) && Climbable(e, r, p) && !Continues(r, p)
    decreases |s|, 3
  {
    hide Taken, MaybeTerm, Canonical, Root, Climbable, TermTokens;
    if Continues(s, p) {
      var op := s[0].op;
      var m := MaybeTerm(After(s), Priority(op) + 1);
      var rhs := m.value.value;
      TermSound(After(s), Priority(op) + 1, rhs, m.rest);
      InfixTaken(op, lhs, s, rhs, m.rest);
      InfixClimbs(op, lhs, rhs, s, m.rest, p);
      ClimbSound(Infix(op, lhs, rhs), m.rest, p, e, r);
      Climbed(TermTokens(lhs) + s, TermTokens(Infix(op, lhs, rhs)), m.rest, TermTokens(e), r);
    } else {
      Kept(TermTokens(lhs), s);
    }
  }

  /** An operation can be the left operand of whatever stopped its right side. */
  lemma InfixClimbs(op: Op, lhs: Term, rhs: Term, s: seq<Token>, r: seq<Token>, p: nat)
    requires Stream(s) && Stream(r) && s[0] == OP(op) && Continues(s, p) && Climbable(lhs, s, p)
    requires Canonical(rhs) && Root(rhs) > Priority(op) && !Continues(r, Priority(op) + 1)
    ensures Climbable(Infix(op, lhs, rhs), r, p)
  {
    hide Groups, Priority;
    GroupsByPriority(op, lhs, rhs);
  }

  lemma Kept(a: seq<Token>, s: seq<Token>)
    ensures Taken(a + s, a, s)
  {
  }

  lemma InfixTaken(op: Op, lhs: Term, s: seq<Token>, rhs: Term, r: seq<Token>)
    requires Stream(s) && s[0] == OP(op) && Taken(After(s), TermTokens(rhs), r)
    ensures Taken(TermTokens(lhs) + s, TermTokens(Infix(op, lhs, rhs)), r)
  {
    assert s == [OP(op)] + After(s);
  }

  lemma {:induction false} OperandSound(s: seq<Token>, e: Term, r: seq<Token>)
    requires Stream(s) && MaybeOperand(s) == Ok(Some(e), r)
    ensures Taken(s, TermTokens(e), r) && Canonical(e) && Root(e) == 100
    decreases |s|, 1
  {
    hide Taken, ParseArgs, NameTokens;
    if s[0].ARTICLE? || s[0].IDENTIFIER? {
      VariableSound(s, e.v, r);
    } else if s[0].FUN_CALL? {
      var s1 := After(s);
      Start(s, FUN_CALL);
      Next(s, [FUN_CALL], s1, IDENTIFIER(e.fn));
      ArgsSound(After(s1), e.args, r);
      assert [FUN_CALL] + [IDENTIFIER(e.fn)] == [FUN_CALL, IDENTIFIER(e.fn)];
      Then(s, [FUN_CALL, IDENTIFIER(e.fn)], After(s1), ArgTokens(e.args), r);
    } else {
      Start(s, s[0]);
    }
  }

  lemma {:induction false} ArgsSound(s: seq<Token>, args: seq<Term>, r: seq<Token>)
    requires Stream(s) && ParseArgs(s) == Ok(args, r)
    ensures Taken(s, ArgTokens(args), r) && AllCanonical(args)
    decreases |s|, 5
  {
    hide Taken, MoreArgTokens, ParseMoreArgs;
    Start(s, s[0]);
    if s[0].FUN_PARAMS? {
      MoreArgsSound(After(s), args, r);
      Then(s, [FUN_PARAMS], After(s), MoreArgTokens(args), r);
    }
  }

  lemma {:induction false} MoreArgsSound(s: seq<Token>, args: seq<Term>, r: seq<Token>)
    requires Stream(s) && ParseMoreArgs(s) == Ok(args, r)
    ensures args != [] && Taken(s, MoreArgTokens(args), r) && AllCanonical(args)
    decreases |s|, 4
  {
    hide Taken, ParseTerm, TermTokens, Canonical;
    var t := ParseTerm(s);
    ParsedTermSound(s, t.value, t.rest);
    Next(s, TermTokens(t.value), t.rest, t.rest[0]);
    if t.rest[0].COMMA? {
      MoreArgsSound(After(t.rest), args[1..], r);
      Then(s, TermTokens(t.value) + [COMMA], After(t.rest), MoreArgTokens(args[1..]), r);
    }
  }

  lemma {:induction false} ParsedTermSound(s: seq<Token>, e: Term, r: seq<Token>)
    requires Stream(s) && ParseTerm(s) == Ok(e, r)
    ensures Taken(s, TermTokens(e), r) && Canonical(e) && !r[0].OP?
    decreases |s|, 3
  {
    TermSound(s, 0, e, r);
  }

  // ----- statements -----

  function StepTokens(t: Step): seq<Token> {
    if t.s.Some? then LineTokens(Line(t.commas, t.s.value)) else Commas(t.commas)
  }

  lemma CommaTokens(t: Step)
    ensures StepTokens(t.(commas := t.commas + 1)) == [COMMA] + StepTokens(t)
  {
    hide SentenceTokens;
    assert Commas(t.commas + 1) == [COMMA] + Commas(t.commas);
    if t.s.Some? {
      Assoc([COMMA], Commas(t.commas), SentenceTokens(t.s.value));
    }
  }

  lemma OneMoreComma(s: seq<Token>, t: Step, r: seq<Token>)
    requires Stream(s) && s[0].COMMA? && Taken(After(s), StepTokens(t), r)
    ensures Taken(s, StepTokens(t.(commas := t.commas + 1)), r)
  {
    hide StepTokens;
    CommaTokens(t);
    Assoc([COMMA], StepTokens(t), r);
    assert s == [COMMA] + After(s);
  }

  lemma {:induction false} LineSound(s: seq<Token>, t: Step, r: seq<Token>)
    requires Stream(s) && MaybeLine(s) == Ok(t, r)
    ensures Taken(s, StepTokens(t), r) && (t.s.Some? ==> CanonicalSentence(t.s.value))
    decreases |s|, 3
  {
    hide Taken, MaybeSentence, SentenceTokens, CanonicalSentence;
    if s[0].COMMA? {
      var m := MaybeLine(After(s));
      LineSound(After(s), m.value, m.rest);
      OneMoreComma(s, m.value, m.rest);
    } else if t.s.Some? {
      SentenceSound(s, t.s.value, r);
      assert [] + SentenceTokens(t.s.value) == SentenceTokens(t.s.value);
    } else {
      NoTokens(s);
    }
  }

  lemma {:induction false} SentenceSound(s: seq<Token>, x: Sentence, r: seq<Token>)
    requires Stream(s) && MaybeSentence(s) == Ok(Some(x), r)
    ensures Taken(s, SentenceTokens(x), r) && CanonicalSentence(x)
    decreases |s|, 2
  {
    hide Taken, SentenceTokens, CanonicalSentence, ParseAssert, ParseInput, ParseBranch, ParseVardecl, ParseLoop, ParseReturn,
         MaybeExpressionStatement;
    match s[0]
    case ASSERT => AssertSound(s, x, r);
    case INPUT => InputSound(s, x, r);
    case ABORT => AbortSound(s);
    case BRANCH_CONDITION => BranchSound(s, x, r);
    case VARDECL => VardeclSound(s, x, r);
    case LOOP_BEGIN => LoopSound(s, x, r);
    case RETURN => ReturnSound(s, x, r);
    case _ => ExpressionStatementSound(s, x, r);
  }

  lemma AbortSound(s: seq<Token>)
    requires Stream(s) && s[0].ABORT?
    ensures Taken(s, SentenceTokens(Aborting), After(s)) && CanonicalSentence(Aborting)
  {
  }

  lemma ExpressionStatementSound(s: seq<Token>, x: Sentence, r: seq<Token>)
    requires Stream(s) && MaybeExpressionStatement(s) == Ok(Some(x), r)
    ensures Taken(s, SentenceTokens(x), r) && CanonicalSentence(x)
  {
    hide Taken, MaybeTerm, ParseTerm, ArgTokens;
    var m := MaybeTerm(s, 0);
    var e := m.value.value;
    TermSound(s, 0, e, m.rest);
    if m.rest[0].PRINT? {
      Next(s, TermTokens(e), m.rest, PRINT);
    } else if m.rest[0].ASSIGN? {
      Next(s, TermTokens(e), m.rest, ASSIGN);
      ParsedTermSound(After(m.rest), x.e, r);
      Then(s, TermTokens(e) + [ASSIGN], After(m.rest), TermTokens(x.e), r);
    }
  }

  lemma AssertSound(s: seq<Token>, x: Sentence, r: seq<Token>)
    requires Stream(s) && s[0].ASSERT? && ParseAssert(s) == Ok(x, r)
    ensures Taken(s, SentenceTokens(x), r) && CanonicalSentence(x)
  {
    hide Taken, ParseTerm, TermTokens, Canonical;
    var t := ParseTerm(After(s));
    Start(s, ASSERT);
    ParsedTermSound(After(s), t.value, t.rest);
    Then(s, [ASSERT], After(s), TermTokens(t.value), t.rest);
    Next(s, [ASSERT] + TermTokens(t.value), t.rest, BANG);
  }

  lemma InputSound(s: seq<Token>, x: Sentence, r: seq<Token>)
    requires Stream(s) && s[0].INPUT? && ParseInput(s) == Ok(x, r)
    ensures Taken(s, SentenceTokens(x), r) && CanonicalSentence(x)
  {
    hide Taken, ParseVariable, NameTokens;
    Start(s, INPUT);
    VariableSound(After(s), x.v, r);
    Then(s, [INPUT], After(s), NameTokens(x.v), r);
  }

  lemma InitSound(s: seq<Token>, init: Option<Term>, r: seq<Token>)
    requires Stream(s) && MaybeInit(s) == Ok(init, r)
    ensures Taken(s, InitTokens(init), r) && MaybeCanonical(init)
  {
    hide Taken, ParseTerm, TermTokens, Canonical;
    if s[0].ASSIGN? {
      Start(s, ASSIGN);
      ParsedTermSound(After(s), init.value, r);
      Then(s, [ASSIGN], After(s), TermTokens(init.value), r);
    } else {
      NoTokens(s);
    }
  }

  lemma VardeclSound(s: seq<Token>, x: Sentence, r: seq<Token>)
    requires Stream(s) && s[0].VARDECL? && ParseVardecl(s) == Ok(x, r)
    ensures Taken(s, SentenceTokens(x), r) && CanonicalSentence(x)
  {
    hide Taken, ParseVariable, ParseType, MaybeInit, NameTokens, TypeTokens, InitTokens, MaybeCanonical;
    var v := ParseVariable(After(s));
    var ty := ParseType(After(v.rest));
    Start(s, VARDECL);
    VariableSound(After(s), x.v, v.rest);
    Then(s, [VARDECL], After(s), NameTokens(x.v), v.rest);
    Next(s, [VARDECL] + NameTokens(x.v), v.rest, COMMA);
    TypeSound(After(v.rest), x.ty, ty.rest);
    Then(s, [VARDECL] + NameTokens(x.v) + [COMMA], After(v.rest), TypeTokens(x.ty), ty.rest);
    InitSound(ty.rest, x.init, r);
    Then(s, [VARDECL] + NameTokens(x.v) + [COMMA] + TypeTokens(x.ty), ty.rest, InitTokens(x.init), r);
  }

  lemma ValueSound(s: seq<Token>, value: Option<Term>, r: seq<Token>)
    requires Stream(s) && MaybeValue(s) == Ok(value, r)
    ensures Taken(s, ValueTokens(value), r) && MaybeCanonical(value)
  {
    hide Taken, ParseTerm, TermTokens, Canonical;
    if s[0].BANG? {
      NoTokens(s);
    } else {
      ParsedTermSound(s, value.value, r);
    }
  }

  lemma ReturnSound(s: seq<Token>, x: Sentence, r: seq<Token>)
    requires Stream(s) && s[0].RETURN? && ParseReturn(s) == Ok(x, r)
    ensures Taken(s, SentenceTokens(x), r) && CanonicalSentence(x)
  {
    hide Taken, MaybeValue, ValueTokens, MaybeCanonical;
    var v := MaybeValue(After(s));
    Start(s, RETURN);
    ValueSound(After(s), x.value, v.rest);
    Then(s, [RETURN], After(s), ValueTokens(x.value), v.rest);
    Next(s, [RETURN] + ValueTokens(x.value), v.rest, BANG);
  }

  lemma {:induction false} LoopSound(s: seq<Token>, x: Sentence, r: seq<Token>)
    requires Stream(s) && s[0].LOOP_BEGIN? && ParseLoop(s) == Ok(x, r)
    ensures Taken(s, SentenceTokens(x), r) && CanonicalSentence(x)
    decreases |s|, 1
  {
    hide Taken, ParseLoopBody, ParseTerm, LinesTokens, TermTokens, CanonicalLines, Canonical;
    var b := ParseLoopBody(After(s));
    Start(s, LOOP_BEGIN);
    LoopBodySound(After(s), x.body, b.rest);
    Then(s, [LOOP_BEGIN], After(s), LinesTokens(x.body) + [LOOP_CONDITION], b.rest);
    Assoc([LOOP_BEGIN], LinesTokens(x.body), [LOOP_CONDITION]);
    ParsedTermSound(b.rest, x.cond, r);
    Then(s, [LOOP_BEGIN] + LinesTokens(x.body) + [LOOP_CONDITION], b.rest, TermTokens(x.cond), r);
  }

  lemma {:induction false} LoopBodySound(s: seq<Token>, ls: seq<Line>, r: seq<Token>)
    requires Stream(s) && ParseLoopBody(s) == Ok(ls, r)
    ensures Taken(s, LinesTokens(ls) + [LOOP_CONDITION], r) && CanonicalLines(ls)
    decreases |s|, 4
  {
    hide Taken, MaybeLine, LineTokens, CanonicalSentence;
    if s[0].LOOP_CONDITION? {
      Start(s, LOOP_CONDITION);
      assert [] + [LOOP_CONDITION] == [LOOP_CONDITION];
    } else {
      var t := MaybeLine(s);
      LineSound(s, t.value, t.rest);
      LoopBodySound(t.rest, ls[1..], r);
      Then(s, LineTokens(ls[0]), t.rest, LinesTokens(ls[1..]) + [LOOP_CONDITION], r);
      Assoc(LineTokens(ls[0]), LinesTokens(ls[1..]), [LOOP_CONDITION]);
    }
  }

  lemma {:induction false} TextSound(s: seq<Token>, t: Text, r: seq<Token>)
    requires Stream(s) && ParseText(s) == Ok(t, r)
    ensures Taken(s, TextTokens(t), r) && CanonicalText(t)
    decreases |s|, 4
  {
    hide Taken, MaybeLine, LineTokens, Commas, CanonicalSentence;
    var m := MaybeLine(s);
    LineSound(s, m.value, m.rest);
    if m.value.s.None? {
      assert [] + Commas(t.commas) == Commas(t.commas);
    } else {
      assert CanonicalLine(t.lines[0]);
      var more := Text(t.lines[1..], t.commas);
      TextSound(m.rest, more, r);
      Then(s, LineTokens(t.lines[0]), m.rest, TextTokens(more), r);
      Assoc(LineTokens(t.lines[0]), LinesTokens(t.lines[1..]), Commas(t.commas));
    }
  }

  lemma ColonSound(s: seq<Token>)
    requires Stream(s)
    ensures Taken(s, Optional(SkipColon(s).0, COLON), SkipColon(s).1)
  {
  }

  lemma OperatorSound(s: seq<Token>)
    requires Stream(s)
    ensures Taken(s, OperatorTokens(MaybeOperator(s).0), MaybeOperator(s).1)
  {
  }

  lemma {:induction false} CaseSound(s: seq<Token>, c: Alternative, r: seq<Token>)
    requires Stream(s) && ParseCase(s) == Ok(c, r)
    ensures Taken(s, CaseTokens(c), r) && CanonicalCase(c)
    decreases |s|, 5
  {
    hide Taken, MaybeOperator, ParseTerm, SkipColon, ParseText, OperatorTokens, TermTokens, Optional, TextTokens, Canonical,
         CanonicalText;
    var (op, r0) := MaybeOperator(s);
    OperatorSound(s);
    var t := ParseTerm(r0);
    ParsedTermSound(r0, c.rhs, t.rest);
    Then(s, OperatorTokens(op), r0, TermTokens(c.rhs), t.rest);
    var (colon, r1) := SkipColon(t.rest);
    ColonSound(t.rest);
    Then(s, OperatorTokens(op) + TermTokens(c.rhs), t.rest, Optional(colon, COLON), r1);
    TextSound(r1, c.body, r);
    Then(s, OperatorTokens(op) + TermTokens(c.rhs) + Optional(colon, COLON), r1, TextTokens(c.body), r);
  }

  lemma {:induction false} CasesSound(s: seq<Token>, cs: seq<Alternative>, r: seq<Token>)
    requires Stream(s) && ParseCases(s) == Ok(cs, r)
    ensures cs != [] && Taken(s, CasesTokens(cs), r) && CanonicalCases(cs)
    decreases |s|, 6
  {
    hide Taken, ParseCase, CaseTokens, CanonicalCase;
    var c := ParseCase(s);
    CaseSound(s, c.value, c.rest);
    if c.rest[0].CASE_END? {
      Next(s, CaseTokens(c.value), c.rest, CASE_END);
      CasesSound(After(c.rest), cs[1..], r);
      Then(s, CaseTokens(c.value) + [CASE_END], After(c.rest), CasesTokens(cs[1..]), r);
    }
  }

  lemma {:induction false} OtherwiseSound(s: seq<Token>, o: Otherwise, r: seq<Token>)
    requires Stream(s) && (s[0].BRANCH_ELSE? || s[0].BRANCH_END?) && ParseOtherwise(s) == Ok(o, r)
    ensures Taken(s, OtherwiseTokens(o) + [BRANCH_END], r) && CanonicalOtherwise(o)
    decreases |s|, 5
  {
    hide Taken, SkipColon, ParseText, Optional, TextTokens, CanonicalText;
    Start(s, s[0]);
    if s[0].BRANCH_END? {
      assert [] + [BRANCH_END] == [BRANCH_END];
    } else {
      var (colon, r0) := SkipColon(After(s));
      ColonSound(After(s));
      Then(s, [BRANCH_ELSE], After(s), Optional(colon, COLON), r0);
      var b := ParseText(r0);
      TextSound(r0, o.body, b.rest);
      Then(s, [BRANCH_ELSE] + Optional(colon, COLON), r0, TextTokens(o.body), b.rest);
      Next(s, [BRANCH_ELSE] + Optional(colon, COLON) + TextTokens(o.body), b.rest, BRANCH_END);
    }
  }

  lemma {:induction false} BranchSound(s: seq<Token>, x: Sentence, r: seq<Token>)
    requires Stream(s) && s[0].BRANCH_CONDITION? && ParseBranch(s) == Ok(x, r)
    ensures Taken(s, SentenceTokens(x), r) && CanonicalSentence(x)
    decreases |s|, 1
  {
    hide Taken, ParseVariable, ParseCases, ParseOtherwise, NameTokens, CasesTokens, OtherwiseTokens, CanonicalCases,
         CanonicalOtherwise;
    var v := ParseVariable(After(s));
    var cs := ParseCases(After(v.rest));
    Start(s, BRANCH_CONDITION);
    VariableSound(After(s), x.lead, v.rest);
    Then(s, [BRANCH_CONDITION], After(s), NameTokens(x.lead), v.rest);
    Next(s, [BRANCH_CONDITION] + NameTokens(x.lead), v.rest, BRANCH_BEGIN);
    var start := [BRANCH_CONDITION] + NameTokens(x.lead) + [BRANCH_BEGIN];
    CasesSound(After(v.rest), x.cases, cs.rest);
    Then(s, start, After(v.rest), CasesTokens(x.cases), cs.rest);
    OtherwiseSound(cs.rest, x.otherwise, r);
    Then(s, start + CasesTokens(x.cases), cs.rest, OtherwiseTokens(x.otherwise) + [BRANCH_END], r);
    Assoc(start + CasesTokens(x.cases), OtherwiseTokens(x.otherwise), [BRANCH_END]);
  }

  // ----- functions and modules -----

  lemma ParamSound(s: seq<Token>, p: ParamText, r: seq<Token>)
    requires Stream(s) && ParseParam(s) == Ok(p, r)
    ensures Taken(s, ParamTokens(p), r)
  {
    hide Taken, ParseVariable, ParseType, NameTokens, TypeTokens;
    var v := ParseVariable(s);
    VariableSound(s, p.v, v.rest);
    TypeSound(v.rest, p.ty, r);
    Then(s, NameTokens(p.v), v.rest, TypeTokens(p.ty), r);
  }

  lemma {:induction false} ParamsSound(s: seq<Token>, ps: seq<ParamText>, r: seq<Token>)
    requires Stream(s) && ParseParams(s) == Ok(ps, r)
    ensures ps != [] && Taken(s, MoreParamTokens(ps), r)
    decreases |s|
  {
    hide Taken, ParseParam, ParamTokens;
    var p := ParseParam(s);
    ParamSound(s, p.value, p.rest);
    Next(s, ParamTokens(p.value), p.rest, p.rest[0]);
    if p.rest[0].COMMA? {
      ParamsSound(After(p.rest), ps[1..], r);
      Then(s, ParamTokens(p.value) + [COMMA], After(p.rest), MoreParamTokens(ps[1..]), r);
    }
  }

  lemma ParamListSound(s: seq<Token>, ps: seq<ParamText>, r: seq<Token>)
    requires Stream(s) && ParseParamList(s) == Ok(ps, r)
    ensures Taken(s, ParamListTokens(ps), r)
  {
    hide Taken, ParseParams, MoreParamTokens;
    Start(s, s[0]);
    if s[0].FUN_PARAMS? {
      ParamsSound(After(s), ps, r);
      Then(s, [FUN_PARAMS], After(s), MoreParamTokens(ps), r);
    }
  }

  lemma ResultSound(s: seq<Token>, t: Option<VarType>, r: seq<Token>)
    requires Stream(s) && MaybeType(s) == Ok(t, r)
    ensures Taken(s, ResultTokens(t), r)
  {
    hide Taken, ParseType, TypeTokens;
    if t.Some? {
      TypeSound(s, t.value, r);
    } else {
      NoTokens(s);
    }
  }

  lemma FunctionSound(s: seq<Token>, f: FunctionText, r: seq<Token>)
    requires Stream(s) && s[0].FUN_DECL? && ParseFunction(s) == Ok(f, r)
    ensures Taken(s, FunctionTokens(f), r) && CanonicalText(f.body)
  {
    hide Taken, MaybeType, ParseParamList, ParseText, ResultTokens, ParamListTokens, TextTokens, CanonicalText;
    var t := MaybeType(After(s));
    var ps := ParseParamList(After(t.rest));
    Start(s, FUN_DECL);
    ResultSound(After(s), f.ret, t.rest);
    Then(s, [FUN_DECL], After(s), ResultTokens(f.ret), t.rest);
    Next(s, [FUN_DECL] + ResultTokens(f.ret), t.rest, IDENTIFIER(f.name));
    var start := [FUN_DECL] + ResultTokens(f.ret) + [IDENTIFIER(f.name)];
    ParamListSound(After(t.rest), f.params, ps.rest);
    Then(s, start, After(t.rest), ParamListTokens(f.params), ps.rest);
    TextSound(ps.rest, f.body, r);
    Then(s, start + ParamListTokens(f.params), ps.rest, TextTokens(f.body), r);
  }

  lemma {:induction false} FunctionsSound(s: seq<Token>, fs: seq<FunctionText>, r: seq<Token>)
    requires Stream(s) && ParseFunctions(s) == Ok(fs, r)
    ensures Taken(s, FunctionsTokens(fs), r) && CanonicalFunctions(fs) && !r[0].FUN_DECL?
    decreases |s|
  {
    hide Taken, ParseFunction, FunctionTokens, CanonicalText;
    if s[0].FUN_DECL? {
      var f := ParseFunction(s);
      FunctionSound(s, f.value, f.rest);
      FunctionsSound(f.rest, fs[1..], r);
      Then(s, FunctionTokens(f.value), f.rest, FunctionsTokens(fs[1..]), r);
    } else {
      NoTokens(s);
    }
  }

  /** Whatever is accepted is a canonical module, spelled by the whole stream. */
  lemma ModuleSound(s: seq<Token>, m: ModuleText, r: seq<Token>)
    requires Stream(s) && ParseModule(s) == Ok(m, r)
    ensures s == ModuleTokens(m) && r == [] && CanonicalModule(m)
  {
    hide Taken, ParseFunctions, ParseText, FunctionsTokens, TextTokens, CanonicalText, CanonicalFunctions;
    var b := ParseFunctions(s);
    var e := MaybeEntryPoint(b.rest);
    var a := ParseFunctions(e.rest);
    FunctionsSound(s, m.before, b.rest);
    FunctionsSound(e.rest, m.after, a.rest);
    Start(a.rest, END);
    Then(e.rest, FunctionsTokens(m.after), a.rest, [END], []);
    if m.entry.Some? {
      Start(b.rest, ENTRY_POINT);
      TextSound(After(b.rest), m.entry.value, e.rest);
      Then(b.rest, [ENTRY_POINT], After(b.rest), TextTokens(m.entry.value), e.rest);
      Then(b.rest, [ENTRY_POINT] + TextTokens(m.entry.value), e.rest, FunctionsTokens(m.after) + [END], []);
      Assoc([ENTRY_POINT] + TextTokens(m.entry.value), FunctionsTokens(m.after), [END]);
    } else {
      NoMore(b.rest, m.after, a.rest);
      assert [] + [END] == [END];
    }
    Then(s, FunctionsTokens(m.before), b.rest, EntryTokens(m) + [END], []);
    Assoc(FunctionsTokens(m.before), EntryTokens(m), [END]);
    Everything(s, FunctionsTokens(m.before) + EntryTokens(m) + [END]);
  }

  lemma NoMore(s: seq<Token>, fs: seq<FunctionText>, r: seq<Token>)
    requires Stream(s) && !s[0].FUN_DECL? && ParseFunctions(s) == Ok(fs, r)
    ensures fs == [] && r == s && CanonicalFunctions([]) && FunctionsTokens([]) == []
  {
  }

  lemma Everything(s: seq<Token>, toks: seq<Token>)
    requires Taken(s, toks, [])
    ensures s == toks
  {
  }
}
