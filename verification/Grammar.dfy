/** Tokens, and the grammar as a datatype: a term, sentence or text is one way of writing
    an expression, a statement or a body, with the articles, commas and colons that the
    syntax tree forgets. */
module Grammar {
  import opened Ast
  import opened Sequences

  datatype Token =
    | IDENTIFIER(id: string)
    | INTEGER(n: Word)
    | FLOAT(bits: int)
    | TYPENAME(base: BaseType)
    | OP(op: Op)
    | STAR | VARDECL | ARTICLE | BANG | COLON | COMMA
    | BRANCH_BEGIN | ASSIGN | PRINT | INPUT | ASSERT | ABORT
    | LOOP_BEGIN | LOOP_CONDITION
    | BRANCH_CONDITION | BRANCH_ELSE | BRANCH_END | CASE_END
    | ENTRY_POINT | FUN_DECL | FUN_CALL | FUN_END | FUN_PARAMS
    | RETURN | END | UNKNOWN
  {
    /** The lexer produces nothing after such a token. */
    predicate IsFinal() { END? || UNKNOWN? }

    predicate StartsTerm() { ARTICLE? || IDENTIFIER? || INTEGER? || FLOAT? || FUN_CALL? }

    predicate StartsSentence() {
      ASSERT? || INPUT? || ABORT? || BRANCH_CONDITION? || VARDECL? || LOOP_BEGIN? || RETURN? || StartsTerm()
    }

    /** A text cannot go on with this token. */
    predicate EndsText() {
      FUN_DECL? || ENTRY_POINT? || CASE_END? || BRANCH_ELSE? || BRANCH_END? || LOOP_CONDITION? || IsFinal()
    }
  }

  /** What a lexer delivers: tokens up to and including the first final one. */
  predicate Stream(s: seq<Token>) {
    s != [] && if s[0].IsFinal() then |s| == 1 else Stream(s[1..])
  }

  /** That is, END or UNKNOWN is last and occurs nowhere else. */
  lemma {:induction false} StreamsEndOnce(s: seq<Token>)
    ensures Stream(s) <==> s != [] && forall i | 0 <= i < |s| :: (s[i].END? || s[i].UNKNOWN?) <==> i == |s| - 1
    decreases s
  {
    if s != [] && !s[0].IsFinal() {
      StreamsEndOnce(s[1..]);
      assert forall i | 0 < i < |s| :: s[i] == s[1..][i - 1];
    }
  }

  // ----- the grammar -----

  datatype Name = Name(article: bool, id: string)

  datatype Term =
    | Var(v: Name)
    | Int(n: Word)
    | Float(bits: int)
    | Invoke(fn: string, args: seq<Term>)
    | Infix(op: Op, left: Term, right: Term)

  datatype Sentence =
    | Asserting(e: Term)
    | Reading(v: Name)
    | Aborting
    | Branching(lead: Name, cases: seq<Alternative>, otherwise: Otherwise)
    | Declaring(v: Name, ty: VarType, init: Option<Term>)
    | Looping(body: seq<Line>, cond: Term)
    | Returning(value: Option<Term>)
    | Printing(e: Term)
    | Assigning(v: Name, e: Term)
    | Calling(fn: string, args: seq<Term>)

  /** A sentence and the commas in front of it. */
  datatype Line = Line(commas: nat, s: Sentence)

  /** Lines, then any number of commas. */
  datatype Text = Text(lines: seq<Line>, commas: nat)

  datatype Alternative = Alternative(op: Option<Op>, rhs: Term, colon: bool, body: Text)

  datatype Otherwise = Nothing | Otherwise(colon: bool, body: Text)

  datatype ParamText = ParamText(v: Name, ty: VarType)

  datatype FunctionText = FunctionText(ret: Option<VarType>, name: string, params: seq<ParamText>, body: Text)

  datatype ModuleText = ModuleText(before: seq<FunctionText>, entry: Option<Text>, after: seq<FunctionText>)

  // ----- the tokens of each -----

  function NameTokens(v: Name): (r: seq<Token>)
    ensures r != [] && r[0].StartsTerm()
  {
    (if v.article then [ARTICLE] else []) + [IDENTIFIER(v.id)]
  }

  function TypeTokens(t: VarType): seq<Token> {
    (if t.pointer then [STAR] else []) + [TYPENAME(t.base)]
  }

  function TermTokens(e: Term): (r: seq<Token>)
    ensures r != [] && r[0].StartsTerm()
    decreases e
  {
    match e
    case Var(v) => NameTokens(v)
    case Int(n) => [Token.INTEGER(n)]
    case Float(b) => [Token.FLOAT(b)]
    case Invoke(fn, args) => [FUN_CALL, IDENTIFIER(fn)] + ArgTokens(args)
    case Infix(op, l, r) => TermTokens(l) + [OP(op)] + TermTokens(r)
  }

  function ArgTokens(args: seq<Term>): seq<Token>
    decreases args
  {
    if args == [] then [FUN_END] else [FUN_PARAMS] + MoreArgTokens(args)
  }

  function MoreArgTokens(args: seq<Term>): seq<Token>
    requires args != []
    decreases args, 0
  {
    if |args| == 1 then TermTokens(args[0]) + [FUN_END]
    else TermTokens(args[0]) + [COMMA] + MoreArgTokens(args[1..])
  }

  function Commas(n: nat): seq<Token> {
    if n == 0 then [] else [COMMA] + Commas(n - 1)
  }

  function Optional(b: bool, t: Token): seq<Token> { if b then [t] else [] }

  function InitTokens(init: Option<Term>): seq<Token> {
    match init case None => [] case Some(e) => [ASSIGN] + TermTokens(e)
  }

  function ValueTokens(value: Option<Term>): seq<Token> {
    match value case None => [] case Some(e) => TermTokens(e)
  }

  function SentenceTokens(s: Sentence): (r: seq<Token>)
    ensures r != [] && r[0].StartsSentence()
    decreases s, 0
  {
    match s
    case Asserting(e) => [ASSERT] + TermTokens(e) + [BANG]
    case Reading(v) => [INPUT] + NameTokens(v)
    case Aborting => [ABORT]
    case Branching(v, cases, o) =>
      [BRANCH_CONDITION] + NameTokens(v) + [BRANCH_BEGIN] + CasesTokens(cases) + OtherwiseTokens(o) + [BRANCH_END]
    case Declaring(v, ty, init) => [VARDECL] + NameTokens(v) + [COMMA] + TypeTokens(ty) + InitTokens(init)
    case Looping(body, cond) => [LOOP_BEGIN] + LinesTokens(body) + [LOOP_CONDITION] + TermTokens(cond)
    case Returning(value) => [RETURN] + ValueTokens(value) + [BANG]
    case Printing(e) => TermTokens(e) + [PRINT]
    case Assigning(v, e) => NameTokens(v) + [ASSIGN] + TermTokens(e)
    case Calling(fn, args) => TermTokens(Invoke(fn, args))
  }

  function LineTokens(l: Line): seq<Token>
    decreases l, 1
  {
    Commas(l.commas) + SentenceTokens(l.s)
  }

  function LinesTokens(ls: seq<Line>): seq<Token>
    decreases ls
  {
    if ls == [] then [] else LineTokens(ls[0]) + LinesTokens(ls[1..])
  }

  function TextTokens(t: Text): seq<Token>
    decreases t
  {
    LinesTokens(t.lines) + Commas(t.commas)
  }

  function OperatorTokens(op: Option<Op>): seq<Token> { if op.Some? then [OP(op.value)] else [] }

  function CaseTokens(c: Alternative): seq<Token>
    decreases c
  {
    OperatorTokens(c.op) + TermTokens(c.rhs) + Optional(c.colon, COLON) + TextTokens(c.body)
  }

  /** Alternatives are separated, not ended, by CASE_END. */
  function CasesTokens(cs: seq<Alternative>): seq<Token>
    decreases cs
  {
    if cs == [] then []
    else if |cs| == 1 then CaseTokens(cs[0])
    else CaseTokens(cs[0]) + [CASE_END] + CasesTokens(cs[1..])
  }

  function OtherwiseTokens(o: Otherwise): seq<Token>
    decreases o
  {
    match o
    case Nothing => []
    case Otherwise(colon, body) => [BRANCH_ELSE] + Optional(colon, COLON) + TextTokens(body)
  }

  function ParamTokens(p: ParamText): seq<Token> { NameTokens(p.v) + TypeTokens(p.ty) }

  function MoreParamTokens(ps: seq<ParamText>): seq<Token>
    requires ps != []
  {
    if |ps| == 1 then ParamTokens(ps[0]) + [FUN_END]
    else ParamTokens(ps[0]) + [COMMA] + MoreParamTokens(ps[1..])
  }

  function ResultTokens(t: Option<VarType>): seq<Token> { if t.Some? then TypeTokens(t.value) else [] }

  function ParamListTokens(ps: seq<ParamText>): seq<Token> {
    if ps == [] then [FUN_END] else [FUN_PARAMS] + MoreParamTokens(ps)
  }

  function FunctionTokens(f: FunctionText): seq<Token> {
    [FUN_DECL] + ResultTokens(f.ret) + [IDENTIFIER(f.name)] + ParamListTokens(f.params) + TextTokens(f.body)
  }

  function FunctionsTokens(fs: seq<FunctionText>): seq<Token> {
    if fs == [] then [] else FunctionTokens(fs[0]) + FunctionsTokens(fs[1..])
  }

  function EntryTokens(m: ModuleText): seq<Token> {
    match m.entry case None => [] case Some(t) => [ENTRY_POINT] + TextTokens(t) + FunctionsTokens(m.after)
  }

  function ModuleTokens(m: ModuleText): seq<Token> { FunctionsTokens(m.before) + EntryTokens(m) + [END] }

  // ----- which of them the grammar admits -----

  /** Products bind tighter than sums, those than shifts, those than relations, and equality
      binds least of all. */
  predicate Tighter(a: Op, b: Op) {
    match b
    case EQ => !a.EQ?
    case GE => a.SHL? || a.SHR? || a.PLUS? || a.MINUS? || a.TIMES? || a.DIV?
    case GT => a.SHL? || a.SHR? || a.PLUS? || a.MINUS? || a.TIMES? || a.DIV?
    case LE => a.SHL? || a.SHR? || a.PLUS? || a.MINUS? || a.TIMES? || a.DIV?
    case LT => a.SHL? || a.SHR? || a.PLUS? || a.MINUS? || a.TIMES? || a.DIV?
    case SHL => a.PLUS? || a.MINUS? || a.TIMES? || a.DIV?
    case SHR => a.PLUS? || a.MINUS? || a.TIMES? || a.DIV?
    case PLUS => a.TIMES? || a.DIV?
    case MINUS => a.TIMES? || a.DIV?
    case TIMES => false
    case DIV => false
  }

  /** What may stand on either side of an operator without parentheses: on its left nothing
      that binds less tightly, on its right only what binds tighter. */
  predicate Groups(op: Op, l: Term, r: Term) {
    (l.Infix? ==> !Tighter(op, l.op)) && (r.Infix? ==> Tighter(r.op, op))
  }

  /** How tightly the root of a term binds; an operand binds tighter than any operator. */
  function Root(e: Term): nat { if e.Infix? then Priority(e.op) else 100 }

  /** The priorities of the parser say the same. */
  lemma GroupsByPriority(op: Op, l: Term, r: Term)
    ensures Groups(op, l, r) <==> Root(l) >= Priority(op) && Root(r) > Priority(op)
  {
    if l.Infix? {
      TighterByPriority(op, l.op);
    }
    if r.Infix? {
      TighterByPriority(r.op, op);
    }
  }

  lemma TighterByPriority(a: Op, b: Op)
    ensures Tighter(a, b) <==> Priority(a) > Priority(b)
  {
  }

  /** Left-associative and stratified by how tightly operators bind. */
  predicate Canonical(e: Term)
    decreases e
  {
    match e
    case Invoke(_, args) => AllCanonical(args)
    case Infix(op, l, r) => Canonical(l) && Canonical(r) && Groups(op, l, r)
    case _ => true
  }

  predicate AllCanonical(args: seq<Term>)
    decreases args
  {
    args == [] || (Canonical(args[0]) && AllCanonical(args[1..]))
  }

  predicate MaybeCanonical(e: Option<Term>) { e.None? || Canonical(e.value) }

  predicate CanonicalSentence(s: Sentence)
    decreases s, 0
  {
    match s
    case Asserting(e) => Canonical(e)
    case Branching(_, cases, o) => cases != [] && CanonicalCases(cases) && CanonicalOtherwise(o)
    case Declaring(_, _, init) => MaybeCanonical(init)
    case Looping(body, cond) => CanonicalLines(body) && Canonical(cond)
    case Returning(value) => MaybeCanonical(value)
    case Printing(e) => Canonical(e)
    case Assigning(_, e) => Canonical(e)
    case Calling(_, args) => AllCanonical(args)
    case _ => true
  }

  predicate CanonicalLines(ls: seq<Line>)
    decreases ls
  {
    ls == [] || (CanonicalLine(ls[0]) && CanonicalLines(ls[1..]))
  }

  predicate CanonicalLine(l: Line)
    decreases l, 1
  {
    CanonicalSentence(l.s)
  }

  predicate CanonicalCases(cs: seq<Alternative>)
    decreases cs
  {
    cs == [] || (CanonicalCase(cs[0]) && CanonicalCases(cs[1..]))
  }

  predicate CanonicalCase(c: Alternative)
    decreases c
  {
    Canonical(c.rhs) && CanonicalText(c.body)
  }

  predicate CanonicalText(t: Text)
    decreases t
  {
    CanonicalLines(t.lines)
  }

  predicate CanonicalOtherwise(o: Otherwise)
    decreases o
  {
    o.Nothing? || CanonicalText(o.body)
  }

  predicate CanonicalFunctions(fs: seq<FunctionText>) {
    forall f | f in fs :: CanonicalText(f.body)
  }

  /** Without an entry point every function comes before it. */
  predicate CanonicalModule(m: ModuleText) {
    && CanonicalFunctions(m.before) && CanonicalFunctions(m.after)
    && match m.entry case None => m.after == [] case Some(t) => CanonicalText(t)
  }

  // ----- the syntax tree of each -----

  function TermAst(e: Term): Expr
    decreases e
  {
    match e
    case Var(v) => Identifier(v.id)
    case Int(n) => IntLit(n)
    case Float(b) => FloatLit(b)
    case Invoke(fn, args) => Call(fn, ArgsAst(args))
    case Infix(op, l, r) => Binary(op, TermAst(l), TermAst(r), false)
  }

  function ArgsAst(args: seq<Term>): (r: seq<Expr>)
    ensures |r| == |args|
    decreases args
  {
    if args == [] then [] else [TermAst(args[0])] + ArgsAst(args[1..])
  }

  function MaybeTermAst(e: Option<Term>): Option<Expr> { match e case None => None case Some(t) => Some(TermAst(t)) }

  function SentenceAst(s: Sentence): Stmt
    decreases s, 0
  {
    match s
    case Asserting(e) => Assert(TermAst(e))
    case Reading(v) => Input(v.id)
    case Aborting => Abort
    case Branching(v, cases, o) => Branch(v.id, CasesAst(v.id, cases), OtherwiseAst(o))
    case Declaring(v, ty, init) => Vardecl(v.id, ty, MaybeTermAst(init))
    case Looping(body, cond) => Loop(LinesAst(body), TermAst(cond))
    case Returning(value) => Return(MaybeTermAst(value))
    case Printing(e) => Print(TermAst(e))
    case Assigning(v, e) => Assign(v.id, TermAst(e))
    case Calling(fn, args) => ExprStmt(Call(fn, ArgsAst(args)))
  }

  function LinesAst(ls: seq<Line>): seq<Stmt>
    decreases ls
  {
    if ls == [] then [] else [LineAst(ls[0])] + LinesAst(ls[1..])
  }

  function LineAst(l: Line): Stmt
    decreases l, 1
  {
    SentenceAst(l.s)
  }

  /** A condition has the lead variable as its left side, and `==` when no operator is written. */
  function CaseAst(lead: string, c: Alternative): Case
    decreases c
  {
    var op := if c.op.Some? then c.op.value else EQ;
    Case(Binary(op, Identifier(lead), TermAst(c.rhs), true), LinesAst(c.body.lines))
  }

  function CasesAst(lead: string, cs: seq<Alternative>): seq<Case>
    decreases cs
  {
    if cs == [] then [] else [CaseAst(lead, cs[0])] + CasesAst(lead, cs[1..])
  }

  function OtherwiseAst(o: Otherwise): Ast.Else
    decreases o
  {
    match o
    case Nothing => NoElse
    case Otherwise(_, body) => Else(LinesAst(body.lines))
  }

  function ParamsAst(ps: seq<ParamText>): seq<Param> {
    if ps == [] then [] else [Param(ps[0].v.id, ps[0].ty)] + ParamsAst(ps[1..])
  }

  function FunctionAst(f: FunctionText): Function {
    Function(f.name, if f.ret.Some? then f.ret.value else VarType(VOID, false), ParamsAst(f.params), LinesAst(f.body.lines))
  }

  function FunctionsAst(fs: seq<FunctionText>): seq<Function> {
    if fs == [] then [] else [FunctionAst(fs[0])] + FunctionsAst(fs[1..])
  }

  lemma {:induction false} FunctionsAstJoin(a: seq<FunctionText>, b: seq<FunctionText>)
    ensures FunctionsAst(a + b) == FunctionsAst(a) + FunctionsAst(b)
  {
    hide FunctionAst;
    if a == [] {
      assert a + b == b;
    } else {
      FunctionsAstJoin(a[1..], b);
      assert (a + b)[1..] == a[1..] + b;
      Assoc([FunctionAst(a[0])], FunctionsAst(a[1..]), FunctionsAst(b));
    }
  }

  function EntryAst(t: Text): Function { Function("", VarType(BaseType.INTEGER, false), [], LinesAst(t.lines)) }

  function ModuleAst(m: ModuleText): Module {
    Module(FunctionsAst(m.before + m.after), match m.entry case None => None case Some(t) => Some(EntryAst(t)))
  }
}
