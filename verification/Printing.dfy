/** What the printer writes, as a function of the tree and of its two counters, and how to
    read an expression back from it. */
module Printing {
  import opened Ast
  import opened Sequences

  /** Output: fixed text, names and literals, and the blanks of an indentation. */
  datatype Piece =
    | Lit(s: string)
    | Ident(name: string)
    | Number(n: Word)
    | Decimal(bits: int)
    | Pad(s: string)

  function Blanks(n: nat): string { seq(n, i => ' ') }

  function Representation(op: Op): string {
    match op
    case EQ => "=="
    case GE => ">="
    case GT => ">"
    case LE => "<="
    case LT => "<"
    case SHL => "<<"
    case SHR => ">>"
    case PLUS => "+"
    case MINUS => "-"
    case TIMES => "*"
    case DIV => "/"
  }

  function BaseName(t: BaseType): string {
    match t
    case VOID => "void"
    case INTEGER => "int"
    case CHAR => "char"
    case FLOAT => "float"
    case BOOL => "bool"
    case DOUBLE => "double"
  }

  // ----- expressions -----

  /** Inside another expression operations are parenthesised; outside, calls are indented.
      A semi-expression is written without its left side. */
  function ShowExpr(e: Expr, level: nat, indent: nat): (r: seq<Piece>)
    ensures r != []
    decreases e
  {
    match e
    case Identifier(x) => [Ident(x)]
    case IntLit(n) => [Number(n)]
    case FloatLit(b) => [Decimal(b)]
    case Binary(op, l, r, semi) =>
      (if level > 0 then [Lit("(")] else [])
      + (if semi then [] else ShowExpr(l, level + 1, indent))
      + ShowOp(op)
      + ShowExpr(r, level + 1, indent)
      + (if level > 0 then [Lit(")")] else [])
    case Call(fn, args) =>
      (if level > 0 then [] else [Pad(Blanks(indent))])
      + [Ident(fn), Lit("(")] + ShowArgs(args, level + 1, indent) + [Lit(")")]
  }

  function ShowOp(op: Op): seq<Piece> { [Lit(" "), Lit(Representation(op)), Lit(" ")] }

  function ShowArgs(args: seq<Expr>, level: nat, indent: nat): seq<Piece>
    decreases args
  {
    if args == [] then []
    else ShowExpr(args[0], level, indent) + ShowMoreArgs(args[1..], level, indent)
  }

  function ShowMoreArgs(args: seq<Expr>, level: nat, indent: nat): seq<Piece>
    decreases args
  {
    if args == [] then []
    else [Lit(", ")] + ShowExpr(args[0], level, indent) + ShowMoreArgs(args[1..], level, indent)
  }

  // ----- statements -----

  function ShowType(t: VarType): seq<Piece> { [Lit(BaseName(t.base))] + if t.pointer then [Lit("*")] else [] }

  function Margin(indent: nat): Piece { Pad(Blanks(indent)) }

  function ShowStmt(s: Stmt, level: nat, indent: nat): seq<Piece>
    decreases s, 1
  {
    match s
    case Assert(e) => [Margin(indent), Lit("assert ")] + ShowExpr(e, level, indent)
    case Input(x) => [Margin(indent), Lit("read "), Ident(x)]
    case Abort => [Margin(indent), Lit("abort")]
    case Vardecl(x, ty, init) =>
      [Margin(indent)] + ShowType(ty) + [Lit(" "), Ident(x)]
      + (match init case None => [] case Some(e) => [Lit(" = ")] + ShowExpr(e, level, indent))
    case Branch(lead, cases, els) =>
      [Margin(indent), Lit("branch "), Ident(lead), Lit(" {\n")]
      + ShowCases(cases, level, indent + 2) + ShowElse(els, level, indent + 2)
      + [Margin(indent), Lit("}")]
    case Loop(body, cond) =>
      [Margin(indent), Lit("do {\n")] + ShowBody(body, level, indent + 2)
      + [Margin(indent), Lit("} while ")] + ShowExpr(cond, level, indent)
    case Return(value) =>
      [Margin(indent), Lit("return")]
      + (match value case None => [] case Some(e) => [Lit(" ")] + ShowExpr(e, level + 1, indent))
    case Print(e) => [Margin(indent), Lit("print ")] + ShowExpr(e, level + 1, indent)
    case Assign(x, e) => [Margin(indent), Ident(x), Lit(" = ")] + ShowExpr(e, level + 1, indent)
    case ExprStmt(e) => ShowExpr(e, level, indent)
  }

  /** The statements of a body, each on a line. */
  function ShowBody(body: seq<Stmt>, level: nat, indent: nat): seq<Piece>
    decreases body
  {
    if body == [] then [] else ShowStmt(body[0], level, indent) + [Lit("\n")] + ShowBody(body[1..], level, indent)
  }

  function ShowCase(c: Case, level: nat, indent: nat): seq<Piece>
    decreases c
  {
    [Margin(indent), Lit("case")] + ShowExpr(c.cond, level, indent) + [Lit(" {\n")]
    + ShowBody(c.body, level, indent + 2) + [Margin(indent), Lit("}\n")]
  }

  function ShowCases(cases: seq<Case>, level: nat, indent: nat): seq<Piece>
    decreases cases
  {
    if cases == [] then [] else ShowCase(cases[0], level, indent) + ShowCases(cases[1..], level, indent)
  }

  function ShowElse(els: Else, level: nat, indent: nat): seq<Piece>
    decreases els
  {
    match els
    case NoElse => []
    case Else(body) => [Margin(indent), Lit("else {\n")] + ShowBody(body, level, indent + 2) + [Margin(indent), Lit("}\n")]
  }

  // ----- functions and modules -----

  function ShowParam(p: Param, indent: nat): seq<Piece> { [Margin(indent)] + ShowType(p.ty) + [Lit(" "), Ident(p.name)] }

  function ShowParams(ps: seq<Param>, indent: nat): seq<Piece> {
    if ps == [] then [] else ShowParam(ps[0], indent) + ShowMoreParams(ps[1..], indent)
  }

  function ShowMoreParams(ps: seq<Param>, indent: nat): seq<Piece> {
    if ps == [] then []
    else [Margin(indent), Lit(", ")] + ShowParam(ps[0], indent) + ShowMoreParams(ps[1..], indent)
  }

  function ShowHeader(f: Function, indent: nat): seq<Piece> {
    [Margin(indent)] + ShowType(f.ret) + [Lit(" "), Margin(indent)] + [if f.name == "" then Lit("main") else Ident(f.name)]
    + [Margin(indent), Lit("(")] + ShowParams(f.params, indent) + [Margin(indent), Lit(")")]
  }

  /** Statements of a function body: their line ends are indented too. */
  function ShowLines(body: seq<Stmt>, level: nat, indent: nat): seq<Piece> {
    if body == [] then []
    else ShowStmt(body[0], level, indent) + [Margin(indent), Lit("\n")] + ShowLines(body[1..], level, indent)
  }

  function ShowFunction(f: Function, level: nat, indent: nat): seq<Piece> {
    ShowHeader(f, indent)
    + (if f.body == [] then [] else [Lit(" {\n")] + ShowLines(f.body, level, indent + 2) + [Lit("}")])
    + [Lit("\n\n")]
  }

  function ShowFunctions(fs: seq<Function>, level: nat, indent: nat): seq<Piece> {
    if fs == [] then [] else ShowFunction(fs[0], level, indent) + ShowFunctions(fs[1..], level, indent)
  }

  function ShowModule(m: Module, level: nat, indent: nat): seq<Piece> {
    ShowFunctions(m.functions, level, indent)
    + match m.entry case None => [] case Some(f) => ShowFunction(f, level, indent)
  }

  // ----- reading expressions back -----

  datatype Decoded<+T> = Fail | Got(value: T, rest: seq<Piece>) {
    predicate IsFailure() { Fail? }
    function PropagateFailure<U>(): Decoded<U>
      requires Fail?
    {
      Fail
    }
    function Extract(): (T, seq<Piece>)
      requires Got?
    {
      (value, rest)
    }
  }

  function OpNamed(s: string): Option<Op> {
    match s
    case "==" => Some(EQ)
    case ">=" => Some(GE)
    case ">" => Some(GT)
    case "<=" => Some(LE)
    case "<" => Some(LT)
    case "<<" => Some(SHL)
    case ">>" => Some(SHR)
    case "+" => Some(PLUS)
    case "-" => Some(MINUS)
    case "*" => Some(TIMES)
    case "/" => Some(DIV)
    case _ => None
  }

  function DecodeOp(s: seq<Piece>): (r: Decoded<Op>)
    ensures r.Got? ==> |r.rest| < |s|
  {
    if |s| < 3 || s[0] != Lit(" ") || !s[1].Lit? || s[2] != Lit(" ") || OpNamed(s[1].s).None? then Fail
    else Got(OpNamed(s[1].s).value, s[3..])
  }

  /** An operand: anything written inside another expression. */
  function DecodeOperand(s: seq<Piece>): (r: Decoded<Expr>)
    ensures r.Got? ==> |r.rest| < |s|
    decreases |s|, 0
  {
    if s == [] then Fail
    else if s[0].Number? then Got(IntLit(s[0].n), s[1..])
    else if s[0].Decimal? then Got(FloatLit(s[0].bits), s[1..])
    else if s[0].Ident? then
      if |s| == 1 || s[1] != Lit("(") then Got(Identifier(s[0].name), s[1..])
      else if |s| > 2 && s[2] == Lit(")") then Got(Call(s[0].name, []), s[3..])
      else
        var (args, r) :- DecodeArgs(s[2..]);
        Got(Call(s[0].name, args), r)
    else if s[0] == Lit("(") then
      var (e, r) :- DecodeOperation(s[1..]);
      if r == [] || r[0] != Lit(")") then Fail else Got(e, r[1..])
    else Fail
  }

  function DecodeOperation(s: seq<Piece>): (r: Decoded<Expr>)
    ensures r.Got? ==> |r.rest| < |s|
    decreases |s|, 1
  {
    var (left, r) :- DecodeOperand(s);
    var (op, r1) :- DecodeOp(r);
    var (right, r2) :- DecodeOperand(r1);
    Got(Binary(op, left, right, false), r2)
  }

  function DecodeArgs(s: seq<Piece>): (r: Decoded<seq<Expr>>)
    ensures r.Got? ==> |r.rest| < |s|
    decreases |s|, 1
  {
    var (e, r) :- DecodeOperand(s);
    if r == [] then Fail
    else if r[0] == Lit(")") then Got([e], r[1..])
    else if r[0] != Lit(", ") then Fail
    else
      var (more, r1) :- DecodeArgs(r[1..]);
      Got([e] + more, r1)
  }

  /** An expression written at some nesting level. */
  function DecodeExpr(s: seq<Piece>, level: nat): (r: Decoded<Expr>)
    ensures r.Got? ==> |r.rest| < |s|
  {
    if level > 0 then DecodeOperand(s)
    else if s != [] && s[0].Pad? then DecodeOperand(s[1..])
    else
      match DecodeOperation(s)
      case Got(e, r) => Got(e, r)
      case Fail => DecodeOperand(s)
  }

  /** The condition of a case, given the lead variable of the branch. */
  function DecodeCondition(lead: string, s: seq<Piece>): (r: Decoded<Expr>)
    ensures r.Got? ==> |r.rest| < |s|
  {
    var (op, r) :- DecodeOp(s);
    var (right, r1) :- DecodeOperand(r);
    Got(Binary(op, Identifier(lead), right, true), r1)
  }

  /** No semi-expression anywhere. */
  predicate Whole(e: Expr)
    decreases e
  {
    match e
    case Binary(_, l, r, semi) => !semi && Whole(l) && Whole(r)
    case Call(_, args) => AllWhole(args)
    case _ => true
  }

  predicate AllWhole(args: seq<Expr>)
    decreases args
  {
    args == [] || (Whole(args[0]) && AllWhole(args[1..]))
  }

  lemma OpDecodes(op: Op, rest: seq<Piece>)
    ensures DecodeOp(ShowOp(op) + rest) == Got(op, rest)
  {
    assert (ShowOp(op) + rest)[3..] == rest;
  }

  /** A name may not be followed by an opening parenthesis. */
  predicate Closed(rest: seq<Piece>) { rest == [] || rest[0] != Lit("(") }

  lemma {:induction false} OperandDecodes(e: Expr, level: nat, indent: nat, rest: seq<Piece>)
    requires Whole(e) && level > 0 && Closed(rest)
    ensures DecodeOperand(ShowExpr(e, level, indent) + rest) == Got(e, rest)
    decreases e, 1
  {
    hide DecodeOperand, DecodeOperation, DecodeArgs, ShowArgs, ShowOp;
    match e
    case Binary(op, l, r, _) =>
      OperationDecodes(e, level + 1, indent, [Lit(")")] + rest);
      InParentheses(e, ShowExpr(l, level + 1, indent) + ShowOp(op) + ShowExpr(r, level + 1, indent), rest);
      assert ShowExpr(e, level, indent)
          == [Lit("(")] + ShowExpr(l, level + 1, indent) + ShowOp(op) + ShowExpr(r, level + 1, indent) + [Lit(")")];
      Wrapped(ShowExpr(l, level + 1, indent), ShowOp(op), ShowExpr(r, level + 1, indent), rest);
    case Call(fn, args) =>
      ArgsDecode(args, level + 1, indent, rest);
      CallDecodes(fn, args, ShowArgs(args, level + 1, indent), rest);
      assert ShowExpr(e, level, indent) == [Ident(fn), Lit("(")] + ShowArgs(args, level + 1, indent) + [Lit(")")];
    case _ => LeafDecodes(e, level, indent, rest);
  }

  lemma LeafDecodes(e: Expr, level: nat, indent: nat, rest: seq<Piece>)
    requires !e.Binary? && !e.Call? && Closed(rest)
    ensures DecodeOperand(ShowExpr(e, level, indent) + rest) == Got(e, rest)
  {
    assert (ShowExpr(e, level, indent) + rest)[1..] == rest;
  }

  lemma Wrapped(l: seq<Piece>, o: seq<Piece>, r: seq<Piece>, rest: seq<Piece>)
    ensures [Lit("(")] + l + o + r + [Lit(")")] + rest == [Lit("(")] + ((l + o + r) + ([Lit(")")] + rest))
  {
  }

  lemma InParentheses(e: Expr, inner: seq<Piece>, rest: seq<Piece>)
    requires DecodeOperation(inner + ([Lit(")")] + rest)) == Got(e, [Lit(")")] + rest)
    ensures DecodeOperand([Lit("(")] + (inner + ([Lit(")")] + rest))) == Got(e, rest)
  {
    hide DecodeOperation;
    var end := [Lit(")")] + rest;
    assert ([Lit("(")] + (inner + end))[1..] == inner + end && end[1..] == rest;
  }

  lemma CallDecodes(fn: string, args: seq<Expr>, shown: seq<Piece>, rest: seq<Piece>)
    requires var s := shown + ([Lit(")")] + rest);
             if args == [] then s == [Lit(")")] + rest else s != [] && s[0] != Lit(")") && DecodeArgs(s) == Got(args, rest)
    ensures DecodeOperand([Ident(fn), Lit("(")] + shown + [Lit(")")] + rest) == Got(Call(fn, args), rest)
  {
    hide DecodeArgs;
    var s := shown + ([Lit(")")] + rest);
    Assoc([Ident(fn), Lit("(")] + shown, [Lit(")")], rest);
    Assoc([Ident(fn), Lit("(")], shown, [Lit(")")] + rest);
    var all := [Ident(fn), Lit("(")] + s;
    assert all[2..] == s && s[1..] == all[3..] && all[2] == s[0];
  }

  /** An operation without its parentheses. */
  lemma {:induction false} OperationDecodes(e: Expr, level: nat, indent: nat, rest: seq<Piece>)
    requires Whole(e) && e.Binary? && level > 0 && Closed(rest)
    ensures DecodeOperation(ShowExpr(e.left, level, indent) + ShowOp(e.op) + ShowExpr(e.right, level, indent) + rest) == Got(e, rest)
    decreases e, 0
  {
    hide DecodeOperand, DecodeOp, ShowExpr;
    var l, o, r := ShowExpr(e.left, level, indent), ShowOp(e.op), ShowExpr(e.right, level, indent);
    Assoc(l + o, r, rest);
    Assoc(l, o, r + rest);
    OperandDecodes(e.left, level, indent, o + (r + rest));
    OpDecodes(e.op, r + rest);
    OperandDecodes(e.right, level, indent, rest);
  }

  lemma {:induction false} ArgsDecode(args: seq<Expr>, level: nat, indent: nat, rest: seq<Piece>)
    requires AllWhole(args) && level > 0
    ensures var s := ShowArgs(args, level, indent) + ([Lit(")")] + rest);
            if args == [] then s == [Lit(")")] + rest else s[0] != Lit(")") && DecodeArgs(s) == Got(args, rest)
    decreases args
  {
    hide DecodeOperand, ShowExpr;
    var end := [Lit(")")] + rest;
    if args == [] {
      assert [] + end == end;
    } else {
      var first, more := ShowExpr(args[0], level, indent), ShowMoreArgs(args[1..], level, indent);
      Assoc(first, more, end);
      MoreIsComma(args[1..], level, indent, end);
      OperandDecodes(args[0], level, indent, more + end);
      OperandStart(args[0], level, indent, more + end);
      assert args == [args[0]] + args[1..];
      if |args| == 1 {
        assert more + end == end && end[1..] == rest && args == [args[0]];
      } else {
        ArgsDecode(args[1..], level, indent, rest);
        assert (more + end)[1..] == ShowArgs(args[1..], level, indent) + end;
      }
    }
  }

  lemma MoreIsComma(args: seq<Expr>, level: nat, indent: nat, end: seq<Piece>)
    ensures args == [] ==> ShowMoreArgs(args, level, indent) + end == end
    ensures args != [] ==> ShowMoreArgs(args, level, indent) + end == [Lit(", ")] + (ShowArgs(args, level, indent) + end)
  {
    if args == [] {
      assert [] + end == end;
    } else {
      var first, more := ShowExpr(args[0], level, indent), ShowMoreArgs(args[1..], level, indent);
      Assoc([Lit(", ")], first, more);
      Assoc([Lit(", ")], first + more, end);
    }
  }

  lemma OperandStart(e: Expr, level: nat, indent: nat, rest: seq<Piece>)
    requires level > 0 && Whole(e)
    ensures var p := (ShowExpr(e, level, indent) + rest)[0]; p != Lit(")") && !p.Pad?
  {
  }

  // ----- the main results -----

  /** Nothing that would make the expression before it longer. */
  predicate Ends(rest: seq<Piece>) { Closed(rest) && (rest == [] || rest[0] != Lit(" ")) }

  /** At every nesting level the printed form gives back the exact tree, whatever the
      priorities of its operators. */
  lemma ExprDecodes(e: Expr, level: nat, indent: nat, rest: seq<Piece>)
    requires Whole(e) && Ends(rest)
    ensures DecodeExpr(ShowExpr(e, level, indent) + rest, level) == Got(e, rest)
  {
    hide DecodeOperand, DecodeOperation, Whole;
    if level > 0 {
      OperandDecodes(e, level, indent, rest);
    } else {
      match e
      case Binary(op, l, r, _) =>
        WholeParts(e);
        OperationDecodes(e, 1, indent, rest);
        OperandStart(l, 1, indent, ShowOp(op) + ShowExpr(r, 1, indent) + rest);
        TopOperation(e, indent, rest);
      case Call(fn, args) =>
        OperandDecodes(e, 1, indent, rest);
        TopCall(e, indent, rest);
      case _ =>
        OperandDecodes(e, 1, indent, rest);
        LeafAlone(e, indent, rest);
    }
  }

  lemma WholeParts(e: Expr)
    requires e.Binary? && Whole(e)
    ensures !e.semi && Whole(e.left) && Whole(e.right)
  {
  }

  lemma TopOperation(e: Expr, indent: nat, rest: seq<Piece>)
    requires e.Binary? && !e.semi
    ensures var l, o, r := ShowExpr(e.left, 1, indent), ShowOp(e.op), ShowExpr(e.right, 1, indent);
            ShowExpr(e, 0, indent) + rest == l + o + r + rest == l + (o + r + rest)
  {
    var l, o, r := ShowExpr(e.left, 1, indent), ShowOp(e.op), ShowExpr(e.right, 1, indent);
    assert ShowExpr(e, 0, indent) == [] + l + o + r + [] == l + o + r;
    Assoc(l, o, r);
    Assoc(l, o + r, rest);
  }

  lemma TopCall(e: Expr, indent: nat, rest: seq<Piece>)
    requires e.Call?
    ensures var s := ShowExpr(e, 0, indent) + rest; s[0].Pad? && s[1..] == ShowExpr(e, 1, indent) + rest
  {
    CallLevel(e.args, 1, 2, indent);
    var tail := [Ident(e.fn), Lit("(")] + ShowArgs(e.args, 1, indent) + [Lit(")")];
    assert ShowExpr(e, 1, indent) == [] + [Ident(e.fn), Lit("(")] + ShowArgs(e.args, 2, indent) + [Lit(")")] == tail;
    assert ShowExpr(e, 0, indent) == [Margin(indent)] + tail;
  }

  /** Beyond the outermost level the level does not matter. */
  lemma {:induction false} CallLevel(args: seq<Expr>, a: nat, b: nat, indent: nat)
    requires a > 0 && b > 0
    ensures ShowArgs(args, a, indent) == ShowArgs(args, b, indent)
    ensures ShowMoreArgs(args, a, indent) == ShowMoreArgs(args, b, indent)
    decreases args
  {
    if args != [] {
      ExprLevel(args[0], a, b, indent);
      CallLevel(args[1..], a, b, indent);
    }
  }

  lemma {:induction false} ExprLevel(e: Expr, a: nat, b: nat, indent: nat)
    requires a > 0 && b > 0
    ensures ShowExpr(e, a, indent) == ShowExpr(e, b, indent)
    decreases e
  {
    match e
    case Binary(_, l, r, _) =>
      ExprLevel(l, a + 1, b + 1, indent);
      ExprLevel(r, a + 1, b + 1, indent);
    case Call(_, args) => CallLevel(args, a + 1, b + 1, indent);
    case _ =>
  }

  lemma LeafAlone(e: Expr, indent: nat, rest: seq<Piece>)
    requires !e.Binary? && !e.Call? && Ends(rest)
    ensures var s := ShowExpr(e, 0, indent) + rest;
            s == ShowExpr(e, 1, indent) + rest && !s[0].Pad? && DecodeOperation(s) == Fail
  {
    var s := ShowExpr(e, 0, indent) + rest;
    assert s[1..] == rest;
  }

  /** The condition of a case is printed without the lead variable and can be read back
      with it. */
  lemma ConditionDecodes(lead: string, op: Op, right: Expr, indent: nat, rest: seq<Piece>)
    requires Whole(right) && Closed(rest)
    ensures DecodeCondition(lead, ShowExpr(Binary(op, Identifier(lead), right, true), 0, indent) + rest)
         == Got(Binary(op, Identifier(lead), right, true), rest)
  {
    hide DecodeOperand, DecodeOp;
    var o, r := ShowOp(op), ShowExpr(right, 1, indent);
    assert ShowExpr(Binary(op, Identifier(lead), right, true), 0, indent) == [] + [] + o + r + [] == o + r;
    Assoc(o, r, rest);
    OpDecodes(op, r + rest);
    OperandDecodes(right, 1, indent, rest);
  }
}
