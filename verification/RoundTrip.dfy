/** Syntax trees that can be written down, and what happens when they are written and
    parsed again. */
module RoundTrip {
  import opened Ast
  import opened Grammar
  import opened Parsing
  import opened Completeness
  import Soundness

  // ----- the trees that can be written -----

  /** The same operator on top, if any. */
  predicate SameRoot(e: Term, x: Expr) { (e.Infix? <==> x.Binary?) && (e.Infix? ==> e.op == x.op) }

  /** Expressions whose shape needs no parentheses. */
  predicate Shaped(e: Expr)
    decreases e
  {
    match e
    case Call(_, args) => AllShaped(args)
    case Binary(op, l, r, semi) => 
      && !semi && Shaped(l) && Shaped(r)
      && (l.Binary? ==> !Tighter(op, l.op)) && (r.Binary? ==> Tighter(r.op, op))
    case _ => true
  }

  predicate AllShaped(args: seq<Expr>)
    decreases args
  {
    args == [] || (Shaped(args[0]) && AllShaped(args[1..]))
  }

  predicate MaybeShaped(e: Option<Expr>) { e.None? || Shaped(e.value) }

  predicate ShapedStmt(s: Stmt)
    decreases s, 0
  {
    match s
    case Assert(e) => Shaped(e)
    case Branch(lead, cases, els) => cases != [] && ShapedCases(lead, cases) && ShapedElse(els)
    case Vardecl(_, _, init) => MaybeShaped(init)
    case Loop(body, cond) => ShapedBody(body) && Shaped(cond)
    case Return(value) => MaybeShaped(value)
    case Print(e) => Shaped(e)
    case Assign(_, e) => Shaped(e)
    case ExprStmt(e) => e.Call? && Shaped(e)
    case _ => true
  }

  predicate ShapedBody(body: seq<Stmt>)
    decreases body
  {
    body == [] || (ShapedStmt(body[0]) && ShapedBody(body[1..]))
  }

  /** The condition of a case compares the lead variable with something. */
  predicate ShapedCase(lead: string, c: Case)
    decreases c
  {
    && c.cond.Binary? && c.cond.semi && c.cond.left == Identifier(lead) && Shaped(c.cond.right)
    && ShapedBody(c.body)
  }

  predicate ShapedCases(lead: string, cs: seq<Case>)
    decreases cs
  {
    cs == [] || (ShapedCase(lead, cs[0]) && ShapedCases(lead, cs[1..]))
  }

  predicate ShapedElse(els: Ast.Else)
    decreases els
  {
    els.NoElse? || ShapedBody(els.body)
  }

  predicate ShapedFunctions(fs: seq<Function>) { forall f | f in fs :: ShapedBody(f.body) }

  predicate ShapedModule(m: Module) {
    && ShapedFunctions(m.functions)
    && match m.entry
       case None => true
       case Some(f) => f.name == "" && f.ret == VarType(BaseType.INTEGER, false) && f.params == [] && ShapedBody(f.body)
  }

  // ----- writing them -----

  function Spell(e: Expr): Term
    requires Shaped(e)
    decreases e
  {
    match e
    case Identifier(x) => Var(Name(false, x))
    case IntLit(n) => Int(n)
    case FloatLit(b) => Float(b)
    case Call(fn, args) => Invoke(fn, SpellAll(args))
    case Binary(op, l, r, _) => Infix(op, Spell(l), Spell(r))
  }

  function SpellAll(args: seq<Expr>): seq<Term>
    requires AllShaped(args)
    decreases args
  {
    if args == [] then [] else [Spell(args[0])] + SpellAll(args[1..])
  }

  function SpellMaybe(e: Option<Expr>): Option<Term>
    requires MaybeShaped(e)
  {
    match e case None => None case Some(x) => Some(Spell(x))
  }

  function SpellStmt(s: Stmt): Sentence
    requires ShapedStmt(s)
    decreases s, 0
  {
    match s
    case Assert(e) => Asserting(Spell(e))
    case Input(x) => Reading(Name(false, x))
    case Abort => Aborting
    case Branch(lead, cases, els) => Branching(Name(false, lead), SpellCases(lead, cases), SpellElse(els))
    case Vardecl(x, ty, init) => Declaring(Name(false, x), ty, SpellMaybe(init))
    case Loop(body, cond) => Looping(SpellBody(body), Spell(cond))
    case Return(value) => Returning(SpellMaybe(value))
    case Print(e) => Printing(Spell(e))
    case Assign(x, e) => Assigning(Name(false, x), Spell(e))
    case ExprStmt(e) => Calling(e.fn, SpellAll(e.args))
  }

  function SpellBody(body: seq<Stmt>): seq<Line>
    requires ShapedBody(body)
    decreases body
  {
    if body == [] then [] else [Line(0, SpellStmt(body[0]))] + SpellBody(body[1..])
  }

  function SpellCase(lead: string, c: Case): Alternative
    requires ShapedCase(lead, c)
    decreases c
  {
    Alternative(Some(c.cond.op), Spell(c.cond.right), false, Text(SpellBody(c.body), 0))
  }

  function SpellCases(lead: string, cs: seq<Case>): seq<Alternative>
    requires ShapedCases(lead, cs)
    decreases cs
  {
    if cs == [] then [] else [SpellCase(lead, cs[0])] + SpellCases(lead, cs[1..])
  }

  function SpellElse(els: Ast.Else): Otherwise
    requires ShapedElse(els)
    decreases els
  {
    match els case NoElse => Nothing case Else(body) => Otherwise(false, Text(SpellBody(body), 0))
  }

  function SpellParams(ps: seq<Param>): seq<ParamText> {
    if ps == [] then [] else [ParamText(Name(false, ps[0].name), ps[0].ty)] + SpellParams(ps[1..])
  }

  function SpellFunction(f: Function): FunctionText
    requires ShapedBody(f.body)
  {
    var ret := if f.ret == VarType(VOID, false) then None else Some(f.ret);
    FunctionText(ret, f.name, SpellParams(f.params), Text(SpellBody(f.body), 0))
  }

  function SpellFunctions(fs: seq<Function>): seq<FunctionText>
    requires ShapedFunctions(fs)
  {
    if fs == [] then [] else [SpellFunction(fs[0])] + SpellFunctions(fs[1..])
  }

  /** The first `k` functions, the entry point if any, the other functions. */
  function SpellModule(m: Module, k: nat): ModuleText
    requires ShapedModule(m) && k <= |m.functions| && (m.entry.None? ==> k == |m.functions|)
  {
    ModuleText(SpellFunctions(m.functions[..k]),
               match m.entry case None => None case Some(f) => Some(Text(SpellBody(f.body), 0)),
               SpellFunctions(m.functions[k..]))
  }

  function Unparse(m: Module, k: nat): seq<Token>
    requires ShapedModule(m) && k <= |m.functions| && (m.entry.None? ==> k == |m.functions|)
  {
    ModuleTokens(SpellModule(m, k))
  }

  // ----- a spelling is canonical and stands for the tree -----

  lemma {:induction false} SpellGood(e: Expr)
    requires Shaped(e)
    ensures Canonical(Spell(e)) && TermAst(Spell(e)) == e && SameRoot(Spell(e), e)
    decreases e
  {
    match e
    case Call(_, args) => SpellAllGood(args);
    case Binary(_, l, r, _) =>
      SpellGood(l);
      SpellGood(r);
    case _ =>
  }

  lemma {:induction false} SpellAllGood(args: seq<Expr>)
    requires AllShaped(args)
    ensures AllCanonical(SpellAll(args)) && ArgsAst(SpellAll(args)) == args
    decreases args
  {
    if args != [] {
      SpellGood(args[0]);
      SpellAllGood(args[1..]);
    }
  }

  lemma SpellMaybeGood(e: Option<Expr>)
    requires MaybeShaped(e)
    ensures MaybeCanonical(SpellMaybe(e)) && MaybeTermAst(SpellMaybe(e)) == e
  {
    if e.Some? {
      SpellGood(e.value);
    }
  }

  lemma {:induction false} SpellStmtGood(s: Stmt)
    requires ShapedStmt(s)
    ensures CanonicalSentence(SpellStmt(s)) && SentenceAst(SpellStmt(s)) == s
    decreases s, 0
  {
    hide Canonical, TermAst, AllCanonical, ArgsAst, MaybeCanonical, MaybeTermAst, CanonicalLines, LinesAst, CanonicalCases, CasesAst,
         CanonicalOtherwise, OtherwiseAst, Spell, SpellAll, SpellMaybe, SpellBody, SpellCases, SpellElse, ShapedBody, ShapedCases,
         ShapedElse, MaybeShaped;
    match s
    case Assert(e) => SpellGood(e);
    case Branch(lead, cases, els) =>
      SpellCasesGood(lead, cases);
      SpellElseGood(els);
      SomeCases(lead, cases);
    case Vardecl(_, _, init) => SpellMaybeGood(init);
    case Loop(body, cond) =>
      SpellBodyGood(body);
      SpellGood(cond);
    case Return(value) => SpellMaybeGood(value);
    case Print(e) => SpellGood(e);
    case Assign(_, e) => SpellGood(e);
    case ExprStmt(e) => SpellCallGood(e);
    case _ =>
  }

  lemma SpellCallGood(e: Expr)
    requires e.Call? && Shaped(e)
    ensures AllShaped(e.args) && AllCanonical(SpellAll(e.args)) && ArgsAst(SpellAll(e.args)) == e.args
  {
    SpellAllGood(e.args);
  }

  lemma SomeCases(lead: string, cs: seq<Case>)
    requires cs != [] && ShapedCases(lead, cs)
    ensures SpellCases(lead, cs) != []
  {
  }

  lemma {:induction false} SpellBodyGood(body: seq<Stmt>)
    requires ShapedBody(body)
    ensures CanonicalLines(SpellBody(body)) && LinesAst(SpellBody(body)) == body
    decreases body
  {
    hide CanonicalSentence, SentenceAst, SpellStmt, ShapedStmt;
    if body != [] {
      SpellStmtGood(body[0]);
      SpellBodyGood(body[1..]);
    }
  }

  lemma {:induction false} SpellCaseGood(lead: string, c: Case)
    requires ShapedCase(lead, c)
    ensures CanonicalCase(SpellCase(lead, c)) && CaseAst(lead, SpellCase(lead, c)) == c
    decreases c
  {
    hide Canonical, TermAst, CanonicalLines, LinesAst, Spell, SpellBody, Shaped, ShapedBody;
    SpellGood(c.cond.right);
    SpellBodyGood(c.body);
  }

  lemma {:induction false} SpellCasesGood(lead: string, cs: seq<Case>)
    requires ShapedCases(lead, cs)
    ensures CanonicalCases(SpellCases(lead, cs)) && CasesAst(lead, SpellCases(lead, cs)) == cs
    decreases cs
  {
    hide CanonicalCase, CaseAst, SpellCase, ShapedCase;
    if cs != [] {
      SpellCaseGood(lead, cs[0]);
      SpellCasesGood(lead, cs[1..]);
    }
  }

  lemma {:induction false} SpellElseGood(els: Ast.Else)
    requires ShapedElse(els)
    ensures CanonicalOtherwise(SpellElse(els)) && OtherwiseAst(SpellElse(els)) == els
    decreases els
  {
    if els.Else? {
      SpellBodyGood(els.body);
    }
  }

  lemma {:induction false} SpellParamsGood(ps: seq<Param>)
    ensures ParamsAst(SpellParams(ps)) == ps
  {
    if ps != [] {
      SpellParamsGood(ps[1..]);
    }
  }

  lemma SpellFunctionGood(f: Function)
    requires ShapedBody(f.body)
    ensures CanonicalText(SpellFunction(f).body) && FunctionAst(SpellFunction(f)) == f
  {
    SpellParamsGood(f.params);
    SpellBodyGood(f.body);
  }

  lemma {:induction false} SpellFunctionsGood(fs: seq<Function>)
    requires ShapedFunctions(fs)
    ensures CanonicalFunctions(SpellFunctions(fs)) && FunctionsAst(SpellFunctions(fs)) == fs
  {
    hide CanonicalText, FunctionAst, SpellFunction, ShapedBody;
    if fs != [] {
      SpellFunctionGood(fs[0]);
      SpellFunctionsGood(fs[1..]);
    }
  }

  lemma SpellModuleGood(m: Module, k: nat)
    requires ShapedModule(m) && k <= |m.functions| && (m.entry.None? ==> k == |m.functions|)
    ensures CanonicalModule(SpellModule(m, k)) && ModuleAst(SpellModule(m, k)) == m
  {
    hide CanonicalFunctions, FunctionsAst, SpellFunctions, CanonicalLines, LinesAst, SpellBody;
    var a, b := m.functions[..k], m.functions[k..];
    SpellFunctionsGood(a);
    SpellFunctionsGood(b);
    FunctionsAstJoin(SpellFunctions(a), SpellFunctions(b));
    assert a + b == m.functions;
    match m.entry
    case None => NoFunctions(b);
    case Some(f) => SpellBodyGood(f.body);
  }

  lemma NoFunctions(fs: seq<Function>)
    requires ShapedFunctions(fs) && fs == []
    ensures SpellFunctions(fs) == []
  {
  }

  // ----- the main results -----

  predicate ParsesTo(s: seq<Token>, m: Module)
    requires Stream(s)
  {
    ParseModule(s).Ok? && ModuleAst(ParseModule(s).value) == m
  }

  /** Any tree that can be written, written with its functions before or after the entry
      point at any split, is read back exactly. */
  lemma ModuleRoundTrip(m: Module, k: nat)
    requires ShapedModule(m) && k <= |m.functions| && (m.entry.None? ==> k == |m.functions|)
    ensures Stream(Unparse(m, k)) && ParsesTo(Unparse(m, k), m)
  {
    hide ParseModule, ModuleTokens, CanonicalModule, ModuleAst, SpellModule;
    SpellModuleGood(m, k);
    ModuleComplete(SpellModule(m, k));
  }

  lemma {:induction false} CanonicalShaped(e: Term)
    requires Canonical(e)
    ensures Shaped(TermAst(e)) && SameRoot(e, TermAst(e))
    decreases e
  {
    match e
    case Invoke(_, args) => AllCanonicalShaped(args);
    case Infix(_, l, r) =>
      CanonicalShaped(l);
      CanonicalShaped(r);
    case _ =>
  }

  lemma {:induction false} AllCanonicalShaped(args: seq<Term>)
    requires AllCanonical(args)
    ensures AllShaped(ArgsAst(args))
    decreases args
  {
    if args != [] {
      CanonicalShaped(args[0]);
      AllCanonicalShaped(args[1..]);
    }
  }

  lemma {:induction false} SentenceShaped(x: Sentence)
    requires CanonicalSentence(x)
    ensures ShapedStmt(SentenceAst(x))
    decreases x, 0
  {
    hide Canonical, TermAst, AllCanonical, ArgsAst, CanonicalLines, LinesAst, CanonicalCases, CasesAst, CanonicalOtherwise,
         OtherwiseAst, ShapedBody, ShapedCases, ShapedElse, SameRoot;
    match x
    case Asserting(e) => CanonicalShaped(e);
    case Branching(v, cases, o) =>
      CasesShaped(v.id, cases);
      OtherwiseShaped(o);
    case Declaring(_, _, init) => if init.Some? { CanonicalShaped(init.value); }
    case Looping(body, cond) =>
      LinesShaped(body);
      CanonicalShaped(cond);
    case Returning(value) => if value.Some? { CanonicalShaped(value.value); }
    case Printing(e) => CanonicalShaped(e);
    case Assigning(_, e) => CanonicalShaped(e);
    case Calling(_, args) => AllCanonicalShaped(args);
    case _ =>
  }

  lemma {:induction false} LineShaped(l: Line)
    requires CanonicalLine(l)
    ensures ShapedStmt(LineAst(l))
    decreases l, 1
  {
    SentenceShaped(l.s);
  }

  lemma {:induction false} LinesShaped(ls: seq<Line>)
    requires CanonicalLines(ls)
    ensures ShapedBody(LinesAst(ls))
    decreases ls
  {
    hide CanonicalLine, LineAst, ShapedStmt;
    if ls != [] {
      LineShaped(ls[0]);
      LinesShaped(ls[1..]);
    }
  }

  lemma {:induction false} TextShaped(t: Text)
    requires CanonicalText(t)
    ensures ShapedBody(LinesAst(t.lines))
    decreases t
  {
    LinesShaped(t.lines);
  }

  lemma {:induction false} CaseShaped(lead: string, c: Alternative)
    requires CanonicalCase(c)
    ensures ShapedCase(lead, CaseAst(lead, c))
    decreases c
  {
    hide Canonical, TermAst, CanonicalLines, LinesAst, Shaped, ShapedBody;
    CanonicalShaped(c.rhs);
    TextShaped(c.body);
  }

  lemma {:induction false} CasesShaped(lead: string, cs: seq<Alternative>)
    requires CanonicalCases(cs)
    ensures ShapedCases(lead, CasesAst(lead, cs)) && (cs != [] ==> CasesAst(lead, cs) != [])
    decreases cs
  {
    hide CanonicalCase, CaseAst, ShapedCase;
    if cs != [] {
      CaseShaped(lead, cs[0]);
      CasesShaped(lead, cs[1..]);
    }
  }

  lemma {:induction false} OtherwiseShaped(o: Otherwise)
    requires CanonicalOtherwise(o)
    ensures ShapedElse(OtherwiseAst(o))
    decreases o
  {
    if o.Otherwise? {
      TextShaped(o.body);
    }
  }

  lemma {:induction false} FunctionsShaped(fs: seq<FunctionText>)
    requires CanonicalFunctions(fs)
    ensures ShapedFunctions(FunctionsAst(fs))
  {
    hide CanonicalText, LinesAst, ShapedBody;
    if fs != [] {
      TextShaped(fs[0].body);
      FunctionsShaped(fs[1..]);
    }
  }

  /** And only such trees come out of the parser. */
  lemma ParsedIsShaped(s: seq<Token>, m: Module)
    requires Stream(s) && ParsesTo(s, m)
    ensures ShapedModule(m)
  {
    hide ParseModule, CanonicalLines, LinesAst, ShapedBody, FunctionsAst;
    var t := ParseModule(s).value;
    Soundness.ModuleSound(s, t, []);
    assert forall f | f in t.before + t.after :: f in t.before || f in t.after;
    FunctionsShaped(t.before + t.after);
    if t.entry.Some? {
      TextShaped(t.entry.value);
    }
  }
}
