/** The parser and the printer agree on what an expression consists of, in what order. */
module Agreement {
  import opened Ast
  import opened Grammar
  import opened Parsing
  import opened Printing
  import opened Sequences
  import Soundness

  /** What is left of an expression when the brackets around it, and between it and its
      parts, are erased. */
  datatype Mark = Operand(name: string) | Value(n: Word) | Real(bits: int) | Operator(op: Op) | Separator

  function TokenMark(t: Token): seq<Mark> {
    match t
    case IDENTIFIER(x) => [Operand(x)]
    case INTEGER(n) => [Value(n)]
    case FLOAT(b) => [Real(b)]
    case OP(op) => [Operator(op)]
    case COMMA => [Separator]
    case _ => []
  }

  function TokenMarks(s: seq<Token>): seq<Mark> {
    if s == [] then [] else TokenMark(s[0]) + TokenMarks(s[1..])
  }

  function PieceMark(p: Piece): seq<Mark> {
    match p
    case Ident(x) => [Operand(x)]
    case Number(n) => [Value(n)]
    case Decimal(b) => [Real(b)]
    case Lit(t) => if t == ", " then [Separator] else if OpNamed(t).Some? then [Operator(OpNamed(t).value)] else []
    case Pad(_) => []
  }

  function PieceMarks(s: seq<Piece>): seq<Mark> {
    if s == [] then [] else PieceMark(s[0]) + PieceMarks(s[1..])
  }

  lemma {:induction false} TokensJoin(a: seq<Token>, b: seq<Token>)
    ensures TokenMarks(a + b) == TokenMarks(a) + TokenMarks(b)
    decreases a
  {
    hide TokenMark;
    if a == [] {
      assert a + b == b;
    } else {
      TokensJoin(a[1..], b);
      assert (a + b)[1..] == a[1..] + b;
      Assoc(TokenMark(a[0]), TokenMarks(a[1..]), TokenMarks(b));
    }
  }

  lemma {:induction false} PiecesJoin(a: seq<Piece>, b: seq<Piece>)
    ensures PieceMarks(a + b) == PieceMarks(a) + PieceMarks(b)
    decreases a
  {
    hide PieceMark;
    if a == [] {
      assert a + b == b;
    } else {
      PiecesJoin(a[1..], b);
      assert (a + b)[1..] == a[1..] + b;
      Assoc(PieceMark(a[0]), PieceMarks(a[1..]), PieceMarks(b));
    }
  }

  lemma OneToken(t: Token)
    ensures TokenMarks([t]) == TokenMark(t)
  {
    assert TokenMark(t) + [] == TokenMark(t);
  }

  lemma OnePiece(p: Piece)
    ensures PieceMarks([p]) == PieceMark(p)
  {
    assert PieceMark(p) + [] == PieceMark(p);
  }

  lemma OpMarks(op: Op)
    ensures PieceMarks(ShowOp(op)) == [Operator(op)]
  {
    OnePiece(Lit(" "));
    OnePiece(Lit(Representation(op)));
    PiecesJoin([Lit(" ")], [Lit(Representation(op))]);
    PiecesJoin([Lit(" "), Lit(Representation(op))], [Lit(" ")]);
    assert ShowOp(op) == [Lit(" "), Lit(Representation(op))] + [Lit(" ")];
  }

  lemma NameMarks(v: Name)
    ensures TokenMarks(NameTokens(v)) == [Operand(v.id)]
  {
    OneToken(ARTICLE);
    OneToken(IDENTIFIER(v.id));
    if v.article {
      TokensJoin([ARTICLE], [IDENTIFIER(v.id)]);
    } else {
      assert NameTokens(v) == [IDENTIFIER(v.id)];
    }
  }

  /** Printed at any level, a term consists of the same operands, operators and separators,
      in the same order, as the tokens that spell it. */
  lemma {:induction false} SameMarks(e: Term, level: nat, indent: nat)
    ensures PieceMarks(ShowExpr(TermAst(e), level, indent)) == TokenMarks(TermTokens(e))
    decreases e
  {
    hide PieceMarks, TokenMarks, ShowArgs, ArgTokens, NameTokens, ShowOp;
    match e
    case Var(v) =>
      NameMarks(v);
      OnePiece(Ident(v.id));
    case Int(n) =>
      OneToken(Token.INTEGER(n));
      OnePiece(Number(n));
    case Float(b) =>
      OneToken(Token.FLOAT(b));
      OnePiece(Decimal(b));
    case Infix(op, l, r) =>
      SameMarks(l, level + 1, indent);
      SameMarks(r, level + 1, indent);
      InfixTokenMarks(op, TermTokens(l), TermTokens(r));
      InfixPieceMarks(op, ShowExpr(TermAst(l), level + 1, indent), ShowExpr(TermAst(r), level + 1, indent), level);
    case Invoke(fn, args) =>
      SameArgMarks(args, level + 1, indent);
      InvokeTokenMarks(fn, ArgTokens(args));
      CallPieceMarks(fn, ShowArgs(ArgsAst(args), level + 1, indent), level, indent);
  }

  lemma InfixTokenMarks(op: Op, l: seq<Token>, r: seq<Token>)
    ensures TokenMarks(l + [OP(op)] + r) == TokenMarks(l) + [Operator(op)] + TokenMarks(r)
  {
    OneToken(OP(op));
    TokensJoin(l, [OP(op)]);
    TokensJoin(l + [OP(op)], r);
  }

  function Bracket(level: nat, b: string): seq<Piece> { if level > 0 then [Lit(b)] else [] }

  lemma BracketMarks(level: nat)
    ensures PieceMarks(Bracket(level, "(")) == [] && PieceMarks(Bracket(level, ")")) == []
  {
    OnePiece(Lit("("));
    OnePiece(Lit(")"));
  }

  lemma InfixPieceMarks(op: Op, l: seq<Piece>, r: seq<Piece>, level: nat)
    ensures PieceMarks(Bracket(level, "(") + l + ShowOp(op) + r + Bracket(level, ")"))
         == PieceMarks(l) + [Operator(op)] + PieceMarks(r)
  {
    hide PieceMarks, Bracket, ShowOp;
    var a, b := Bracket(level, "("), Bracket(level, ")");
    BracketMarks(level);
    OpMarks(op);
    PiecesJoin(a, l);
    PiecesJoin(a + l, ShowOp(op));
    PiecesJoin(a + l + ShowOp(op), r);
    PiecesJoin(a + l + ShowOp(op) + r, b);
  }

  lemma InvokeTokenMarks(fn: string, args: seq<Token>)
    ensures TokenMarks([FUN_CALL, IDENTIFIER(fn)] + args) == [Operand(fn)] + TokenMarks(args)
  {
    OneToken(FUN_CALL);
    OneToken(IDENTIFIER(fn));
    TokensJoin([FUN_CALL], [IDENTIFIER(fn)]);
    TokensJoin([FUN_CALL, IDENTIFIER(fn)], args);
    assert [FUN_CALL] + [IDENTIFIER(fn)] == [FUN_CALL, IDENTIFIER(fn)];
  }

  lemma CallPieceMarks(fn: string, args: seq<Piece>, level: nat, indent: nat)
    ensures var pad := if level > 0 then [] else [Margin(indent)];
            PieceMarks(pad + [Ident(fn), Lit("(")] + args + [Lit(")")]) == [Operand(fn)] + PieceMarks(args)
  {
    hide PieceMarks;
    var pad := if level > 0 then [] else [Margin(indent)];
    NoMarks();
    OnePiece(Margin(indent));
    OnePiece(Ident(fn));
    OnePiece(Lit("("));
    OnePiece(Lit(")"));
    PiecesJoin([Ident(fn)], [Lit("(")]);
    assert [Ident(fn)] + [Lit("(")] == [Ident(fn), Lit("(")];
    PiecesJoin(pad, [Ident(fn), Lit("(")]);
    PiecesJoin(pad + [Ident(fn), Lit("(")], args);
    PiecesJoin(pad + [Ident(fn), Lit("(")] + args, [Lit(")")]);
  }

  lemma {:induction false} SameArgMarks(args: seq<Term>, level: nat, indent: nat)
    ensures PieceMarks(ShowArgs(ArgsAst(args), level, indent)) == TokenMarks(ArgTokens(args))
    decreases args, 1
  {
    hide PieceMarks, TokenMarks, TermTokens, ShowExpr, TermAst;
    OneToken(FUN_END);
    if args == [] {
      NoMarks();
    } else {
      SameMoreArgMarks(args, level, indent);
      OneToken(FUN_PARAMS);
      TokensJoin([FUN_PARAMS], MoreArgTokens(args));
      assert [] + TokenMarks(MoreArgTokens(args)) == TokenMarks(MoreArgTokens(args));
    }
  }

  lemma NoMarks()
    ensures PieceMarks([]) == [] && TokenMarks([]) == []
  {
  }

  lemma {:induction false} SameMoreArgMarks(args: seq<Term>, level: nat, indent: nat)
    requires args != []
    ensures PieceMarks(ShowArgs(ArgsAst(args), level, indent)) == TokenMarks(MoreArgTokens(args))
    decreases args, 0
  {
    hide PieceMarks, TokenMarks, TermTokens, ShowExpr, TermAst;
    var shown, tokens := ShowExpr(TermAst(args[0]), level, indent), TermTokens(args[0]);
    SameMarks(args[0], level, indent);
    assert ArgsAst(args)[1..] == ArgsAst(args[1..]);
    if |args| == 1 {
      OneToken(FUN_END);
      TokensJoin(tokens, [FUN_END]);
      assert shown + [] == shown;
      assert TokenMarks(tokens) + [] == TokenMarks(tokens);
    } else {
      var more := ShowArgs(ArgsAst(args[1..]), level, indent);
      SameMoreArgMarks(args[1..], level, indent);
      OneToken(COMMA);
      OnePiece(Lit(", "));
      TokensJoin(tokens, [COMMA]);
      TokensJoin(tokens + [COMMA], MoreArgTokens(args[1..]));
      CommaThenArgs(ArgsAst(args[1..]), level, indent);
      PiecesJoin([Lit(", ")], more);
      PiecesJoin(shown, [Lit(", ")] + more);
      SeparatorAssoc(PieceMarks(shown), PieceMarks(more));
    }
  }

  lemma CommaThenArgs(args: seq<Expr>, level: nat, indent: nat)
    requires args != []
    ensures ShowMoreArgs(args, level, indent) == [Lit(", ")] + ShowArgs(args, level, indent)
  {
  }

  lemma SeparatorAssoc(a: seq<Mark>, b: seq<Mark>)
    ensures a + ([Separator] + b) == a + [Separator] + b
  {
  }

  /** For every expression the parser accepts: erasing the brackets from what the printer
      writes for it leaves the operands and operators of the source, in order. */
  lemma PrinterAgreesWithParser(s: seq<Token>, p: nat, e: Term, rest: seq<Token>, level: nat, indent: nat)
    requires Stream(s) && p <= 100 && MaybeTerm(s, p) == Ok(Some(e), rest)
    ensures PieceMarks(ShowExpr(TermAst(e), level, indent)) == TokenMarks(s[..|s| - |rest|])
  {
    hide MaybeTerm, ShowExpr, TermAst, TermTokens, PieceMarks, TokenMarks, Canonical, Continues;
    Soundness.TermSound(s, p, e, rest);
    SameMarks(e, level, indent);
    assert s[..|s| - |rest|] == TermTokens(e);
  }
}
