/** The printer as an object: an output that only grows and two counters that every visit
    leaves as it found them. */
module AstPrinter {
  import opened Ast
  import opened Printing
  import opened Sequences

  const SPACES := "                                "

  class AstPrinter {
    var out: seq<Piece>
    var expressionLevel: nat
    var indentLevel: nat

    constructor ()
      ensures out == [] && expressionLevel == 0 && indentLevel == 0
    {
      out, expressionLevel, indentLevel := [], 0, 0;
    }

    /** A visit wrote this and restored the counters. */
    twostate predicate Wrote(shown: seq<Piece>)
      reads this
    {
      out == old(out) + shown && expressionLevel == old(expressionLevel) && indentLevel == old(indentLevel)
    }

    method Write(p: seq<Piece>)
      modifies this
      ensures Wrote(p)
    {
      out := out + p;
    }

    /** Writes the indentation, thirty-two blanks at a time. */
    method Indent()
      modifies this
      ensures Wrote([Margin(old(indentLevel))])
    {
      hide Blanks;
      var pad := "";
      NoBlanks();
      var i := 0;
      while i < indentLevel / 32
        invariant unchanged(this) && 0 <= i <= indentLevel / 32 && pad == Blanks(32 * i)
      {
        BlanksJoin(32 * i, 32);
        pad := pad + SPACES;
        i := i + 1;
      }
      BlanksJoin(32 * i, indentLevel % 32);
      pad := pad + SPACES[..indentLevel % 32];
      assert Pad(pad) == Margin(indentLevel);
      Write([Pad(pad)]);
    }

    method IncreaseIndent()
      modifies `indentLevel
      ensures indentLevel == old(indentLevel) + 2
    {
      indentLevel := indentLevel + 2;
    }

    method DecreaseIndent()
      modifies `indentLevel
      ensures indentLevel == if old(indentLevel) >= 2 then old(indentLevel) - 2 else old(indentLevel)
    {
      if indentLevel >= 2 {
        indentLevel := indentLevel - 2;
      }
    }

    // ----- expressions -----

    method VisitExpression(e: Expr)
      modifies this
      ensures Wrote(ShowExpr(e, old(expressionLevel), old(indentLevel)))
      decreases e, 1
    {
      match e
      case Identifier(x) => Write([Ident(x)]);
      case IntLit(n) => Write([Number(n)]);
      case FloatLit(b) => Write([Decimal(b)]);
      case Binary(_, _, _, _) => VisitBinaryExpression(e);
      case Call(_, _) => VisitFunctionCallExpression(e);
    }

    method VisitBinaryExpression(e: Expr)
      requires e.Binary?
      modifies this
      ensures Wrote(ShowExpr(e, old(expressionLevel), old(indentLevel)))
      decreases e, 0
    {
      hide ShowOp, Blanks;
      ghost var start, level, indent := out, expressionLevel, indentLevel;
      ghost var left := if e.semi then [] else ShowExpr(e.left, level + 1, indent);
      NoOutput(start);
      if expressionLevel > 0 {
        Write([Lit("(")]);
      }
      NoOutput(out);
      expressionLevel := expressionLevel + 1;
      if !e.semi {
        VisitExpression(e.left);
      }
      Write(ShowOp(e.op));
      VisitExpression(e.right);
      expressionLevel := expressionLevel - 1;
      NoOutput(out);
      if expressionLevel > 0 {
        Write([Lit(")")]);
      }
      Flat5(start, Bracket(level, "("), left, ShowOp(e.op), ShowExpr(e.right, level + 1, indent), Bracket(level, ")"));
    }

    method VisitFunctionCallExpression(e: Expr)
      requires e.Call?
      modifies this
      ensures Wrote(ShowExpr(e, old(expressionLevel), old(indentLevel)))
      decreases e, 0
    {
      hide ShowArgs, Blanks;
      ghost var start, level, indent := out, expressionLevel, indentLevel;
      NoOutput(start);
      if expressionLevel == 0 {
        Indent();
      }
      Write([Ident(e.fn), Lit("(")]);
      expressionLevel := expressionLevel + 1;
      VisitArguments(e.args);
      Write([Lit(")")]);
      expressionLevel := expressionLevel - 1;
      ghost var pad := if level > 0 then [] else [Margin(indent)];
      Flat4(start, pad, [Ident(e.fn), Lit("(")], ShowArgs(e.args, level + 1, indent), [Lit(")")]);
    }

    method VisitArguments(args: seq<Expr>)
      modifies this
      ensures Wrote(ShowArgs(args, old(expressionLevel), old(indentLevel)))
      decreases args
    {
      hide ShowExpr;
      ghost var level, indent, start := expressionLevel, indentLevel, out;
      var first := true;
      var i := 0;
      assert args[0..] == args && start + ShowArgs(args, level, indent) == out + ShowArgs(args, level, indent);
      while i < |args|
        invariant 0 <= i <= |args| && expressionLevel == level && indentLevel == indent && (first <==> i == 0)
        invariant first ==> out == start
        invariant !first ==> start + ShowArgs(args, level, indent) == out + ShowMoreArgs(args[i..], level, indent)
      {
        ghost var before := out;
        if first {
          first := false;
        } else {
          Write([Lit(", ")]);
        }
        VisitExpression(args[i]);
        assert args[i..][1..] == args[i + 1..];
        ArgWritten(before, args[i..], level, indent);
        i := i + 1;
      }
    }
  
    // ----- statements -----

    /** Indentation, then a piece. */
    method StartLine(p: Piece)
      modifies this
      ensures Wrote([Margin(old(indentLevel)), p])
    {
      Indent();
      Write([p]);
    }

    method WriteType(t: VarType)
      modifies this
      ensures Wrote(ShowType(t))
    {
      NoOutput([Lit(BaseName(t.base))]);
      Write([Lit(BaseName(t.base))]);
      if t.pointer {
        Write([Lit("*")]);
      }
    }

    method VisitStatement(s: Stmt)
      modifies this
      ensures Wrote(ShowStmt(s, old(expressionLevel), old(indentLevel)))
      decreases s, 1
    {
      hide ShowExpr, ShowType, Margin;
      match s
      case Assert(e) =>
        StartLine(Lit("assert "));
        VisitExpression(e);
      case Input(x) =>
        StartLine(Lit("read "));
        Write([Ident(x)]);
      case Abort => StartLine(Lit("abort"));
      case Vardecl(_, _, _) => VisitVardeclStatement(s);
      case Branch(_, _, _) => VisitBranchStatement(s);
      case Loop(_, _) => VisitLoopStatement(s);
      case Return(_) => VisitReturnStatement(s);
      case Print(e) =>
        expressionLevel := expressionLevel + 1;
        StartLine(Lit("print "));
        VisitExpression(e);
        expressionLevel := expressionLevel - 1;
      case Assign(x, e) =>
        expressionLevel := expressionLevel + 1;
        StartLine(Ident(x));
        Write([Lit(" = ")]);
        VisitExpression(e);
        expressionLevel := expressionLevel - 1;
      case ExprStmt(e) => VisitExpression(e);
    }

    method VisitVardeclStatement(s: Stmt)
      requires s.Vardecl?
      modifies this
      ensures Wrote(ShowStmt(s, old(expressionLevel), old(indentLevel)))
    {
      hide ShowExpr, ShowType, Margin;
      ghost var start, level, indent := out, expressionLevel, indentLevel;
      Indent();
      WriteType(s.ty);
      Write([Lit(" "), Ident(s.name)]);
      ghost var init := if s.init.Some? then [Lit(" = ")] + ShowExpr(s.init.value, level, indent) else [];
      if s.init.Some? {
        Assoc(out, [Lit(" = ")], ShowExpr(s.init.value, level, indent));
        Write([Lit(" = ")]);
        VisitExpression(s.init.value);
      } else {
        NoOutput(out);
      }
      Flat4(start, [Margin(indent)], ShowType(s.ty), [Lit(" "), Ident(s.name)], init);
    }

    method VisitReturnStatement(s: Stmt)
      requires s.Return?
      modifies this
      ensures Wrote(ShowStmt(s, old(expressionLevel), old(indentLevel)))
    {
      hide ShowExpr, Margin;
      ghost var start, level, indent := out, expressionLevel, indentLevel;
      expressionLevel := expressionLevel + 1;
      StartLine(Lit("return"));
      if s.value.Some? {
        Assoc(out, [Lit(" ")], ShowExpr(s.value.value, level + 1, indent));
        Assoc(start, [Margin(indent), Lit("return")], [Lit(" ")] + ShowExpr(s.value.value, level + 1, indent));
        Write([Lit(" ")]);
        VisitExpression(s.value.value);
      } else {
        NoOutput([Margin(indent), Lit("return")]);
      }
      expressionLevel := expressionLevel - 1;
    }

    method VisitBranchStatement(s: Stmt)
      requires s.Branch?
      modifies this
      ensures Wrote(ShowStmt(s, old(expressionLevel), old(indentLevel)))
      decreases s, 0
    {
      hide ShowCases, ShowElse, Margin;
      ghost var start, level, indent := out, expressionLevel, indentLevel;
      StartLine(Lit("branch "));
      Write([Ident(s.lead), Lit(" {\n")]);
      Assoc(start, [Margin(indent), Lit("branch ")], [Ident(s.lead), Lit(" {\n")]);
      IncreaseIndent();
      VisitCases(s.cases);
      VisitElse(s.els);
      DecreaseIndent();
      StartLine(Lit("}"));
      assert [Margin(indent), Lit("branch ")] + [Ident(s.lead), Lit(" {\n")]
          == [Margin(indent), Lit("branch "), Ident(s.lead), Lit(" {\n")];
      Flat4(start, [Margin(indent), Lit("branch "), Ident(s.lead), Lit(" {\n")], ShowCases(s.cases, level, indent + 2),
            ShowElse(s.els, level, indent + 2), [Margin(indent), Lit("}")]);
    }

    method VisitCases(cases: seq<Case>)
      modifies this
      ensures Wrote(ShowCases(cases, old(expressionLevel), old(indentLevel)))
      decreases cases
    {
      hide ShowCase;
      ghost var start, level, indent := out, expressionLevel, indentLevel;
      var i := 0;
      assert cases[0..] == cases;
      while i < |cases|
        invariant 0 <= i <= |cases| && expressionLevel == level && indentLevel == indent
        invariant start + ShowCases(cases, level, indent) == out + ShowCases(cases[i..], level, indent)
      {
        Assoc(out, ShowCase(cases[i], level, indent), ShowCases(cases[i + 1..], level, indent));
        assert cases[i..][1..] == cases[i + 1..];
        VisitCase(cases[i]);
        i := i + 1;
      }
      NoOutput(out);
    }

    method VisitCase(c: Case)
      modifies this
      ensures Wrote(ShowCase(c, old(expressionLevel), old(indentLevel)))
      decreases c
    {
      hide ShowExpr, ShowBody, Margin;
      ghost var start, level, indent := out, expressionLevel, indentLevel;
      StartLine(Lit("case"));
      VisitExpression(c.cond);
      Write([Lit(" {\n")]);
      IncreaseIndent();
      VisitBody(c.body);
      DecreaseIndent();
      StartLine(Lit("}\n"));
      Flat5(start, [Margin(indent), Lit("case")], ShowExpr(c.cond, level, indent), [Lit(" {\n")],
            ShowBody(c.body, level, indent + 2), [Margin(indent), Lit("}\n")]);
    }

    method VisitElse(els: Else)
      modifies this
      ensures Wrote(ShowElse(els, old(expressionLevel), old(indentLevel)))
      decreases els
    {
      hide ShowBody, Margin;
      ghost var start, level, indent := out, expressionLevel, indentLevel;
      if els.NoElse? {
        NoOutput(out);
        return;
      }
      StartLine(Lit("else {\n"));
      IncreaseIndent();
      VisitBody(els.body);
      DecreaseIndent();
      StartLine(Lit("}\n"));
      Flat3(start, [Margin(indent), Lit("else {\n")], ShowBody(els.body, level, indent + 2), [Margin(indent), Lit("}\n")]);
    }

    method VisitBody(body: seq<Stmt>)
      modifies this
      ensures Wrote(ShowBody(body, old(expressionLevel), old(indentLevel)))
      decreases body
    {
      hide ShowStmt;
      ghost var start, level, indent := out, expressionLevel, indentLevel;
      var i := 0;
      assert body[0..] == body;
      while i < |body|
        invariant 0 <= i <= |body| && expressionLevel == level && indentLevel == indent
        invariant start + ShowBody(body, level, indent) == out + ShowBody(body[i..], level, indent)
      {
        Flat3(out, ShowStmt(body[i], level, indent), [Lit("\n")], ShowBody(body[i + 1..], level, indent));
        assert body[i..][1..] == body[i + 1..];
        VisitStatement(body[i]);
        Write([Lit("\n")]);
        i := i + 1;
      }
      NoOutput(out);
    }

    method VisitLoopStatement(s: Stmt)
      requires s.Loop?
      modifies this
      ensures Wrote(ShowStmt(s, old(expressionLevel), old(indentLevel)))
      decreases s, 0
    {
      hide ShowExpr, ShowBody, Margin;
      ghost var start, level, indent := out, expressionLevel, indentLevel;
      StartLine(Lit("do {\n"));
      IncreaseIndent();
      VisitBody(s.body);
      DecreaseIndent();
      StartLine(Lit("} while "));
      VisitExpression(s.cond);
      Flat4(start, [Margin(indent), Lit("do {\n")], ShowBody(s.body, level, indent + 2), [Margin(indent), Lit("} while ")],
            ShowExpr(s.cond, level, indent));
    }

    // ----- functions and modules -----

    method WriteParam(p: Param)
      modifies this
      ensures Wrote(ShowParam(p, old(indentLevel)))
    {
      hide ShowType, Margin;
      ghost var start, indent := out, indentLevel;
      Indent();
      WriteType(p.ty);
      Write([Lit(" "), Ident(p.name)]);
      Flat3(start, [Margin(indent)], ShowType(p.ty), [Lit(" "), Ident(p.name)]);
    }

    method WriteParams(ps: seq<Param>)
      modifies this
      ensures Wrote(ShowParams(ps, old(indentLevel)))
    {
      hide ShowParam, Margin;
      ghost var start, level, indent := out, expressionLevel, indentLevel;
      var first := true;
      var i := 0;
      assert ps[0..] == ps;
      while i < |ps|
        invariant 0 <= i <= |ps| && expressionLevel == level && indentLevel == indent && (first <==> i == 0)
        invariant first ==> out == start
        invariant !first ==> start + ShowParams(ps, indent) == out + ShowMoreParams(ps[i..], indent)
      {
        assert ps[i..][1..] == ps[i + 1..];
        if first {
          first := false;
          Assoc(out, ShowParam(ps[i], indent), ShowMoreParams(ps[i + 1..], indent));
        } else {
          Flat3(out, [Margin(indent), Lit(", ")], ShowParam(ps[i], indent), ShowMoreParams(ps[i + 1..], indent));
          StartLine(Lit(", "));
        }
        WriteParam(ps[i]);
        i := i + 1;
      }
      NoOutput(out);
    }

    method WriteHeader(f: Function)
      modifies this
      ensures Wrote(ShowHeader(f, old(indentLevel)))
    {
      hide ShowType, ShowParams, Margin;
      ghost var start, indent := out, indentLevel;
      Indent();
      WriteType(f.ret);
      Write([Lit(" ")]);
      StartLine(if f.name == "" then Lit("main") else Ident(f.name));
      StartLine(Lit("("));
      WriteParams(f.params);
      StartLine(Lit(")"));
      HeaderFlat(start, [Margin(indent)], ShowType(f.ret), Margin(indent), if f.name == "" then Lit("main") else Ident(f.name),
                 [Margin(indent), Lit("(")], ShowParams(f.params, indent), [Margin(indent), Lit(")")]);
    }

    method VisitFunction(f: Function)
      modifies this
      ensures Wrote(ShowFunction(f, old(expressionLevel), old(indentLevel)))
    {
      hide ShowHeader, ShowLines;
      ghost var start, level, indent := out, expressionLevel, indentLevel;
      ghost var shown := if f.body == [] then [] else [Lit(" {\n")] + ShowLines(f.body, level, indent + 2) + [Lit("}")];
      WriteHeader(f);
      if f.body != [] {
        Flat3(out, [Lit(" {\n")], ShowLines(f.body, level, indent + 2), [Lit("}")]);
        Write([Lit(" {\n")]);
        IncreaseIndent();
        VisitLines(f.body);
        Write([Lit("}")]);
        DecreaseIndent();
      } else {
        NoOutput(out);
      }
      Write([Lit("\n\n")]);
      Flat3(start, ShowHeader(f, indent), shown, [Lit("\n\n")]);
    }

    method VisitLines(body: seq<Stmt>)
      modifies this
      ensures Wrote(ShowLines(body, old(expressionLevel), old(indentLevel)))
    {
      hide ShowStmt, Margin;
      ghost var start, level, indent := out, expressionLevel, indentLevel;
      var i := 0;
      assert body[0..] == body;
      while i < |body|
        invariant 0 <= i <= |body| && expressionLevel == level && indentLevel == indent
        invariant start + ShowLines(body, level, indent) == out + ShowLines(body[i..], level, indent)
      {
        Flat3(out, ShowStmt(body[i], level, indent), [Margin(indent), Lit("\n")], ShowLines(body[i + 1..], level, indent));
        assert body[i..][1..] == body[i + 1..];
        VisitStatement(body[i]);
        StartLine(Lit("\n"));
        i := i + 1;
      }
      NoOutput(out);
    }

    method VisitModule(m: Module)
      modifies this
      ensures Wrote(ShowModule(m, old(expressionLevel), old(indentLevel)))
    {
      hide ShowFunction;
      ghost var start, level, indent := out, expressionLevel, indentLevel;
      ghost var last := if m.entry.Some? then ShowFunction(m.entry.value, level, indent) else [];
      var i := 0;
      assert m.functions[0..] == m.functions;
      while i < |m.functions|
        invariant 0 <= i <= |m.functions| && expressionLevel == level && indentLevel == indent
        invariant start + ShowFunctions(m.functions, level, indent) == out + ShowFunctions(m.functions[i..], level, indent)
      {
        Assoc(out, ShowFunction(m.functions[i], level, indent), ShowFunctions(m.functions[i + 1..], level, indent));
        assert m.functions[i..][1..] == m.functions[i + 1..];
        VisitFunction(m.functions[i]);
        i := i + 1;
      }
      NoOutput(out);
      Assoc(start, ShowFunctions(m.functions, level, indent), last);
      if m.entry.Some? {
        VisitFunction(m.entry.value);
      }
    }
  }

  lemma HeaderFlat(start: seq<Piece>, a: seq<Piece>, t: seq<Piece>, margin: Piece, name: Piece, open: seq<Piece>,
                   params: seq<Piece>, close: seq<Piece>)
    ensures start + (a + t + [Lit(" "), margin] + [name] + open + params + close)
         == start + a + t + [Lit(" ")] + [margin, name] + open + params + close
  {
    Assoc(start, a + t + [Lit(" "), margin] + [name] + open + params, close);
    Assoc(start, a + t + [Lit(" "), margin] + [name] + open, params);
    Flat5(start, a, t, [Lit(" "), margin], [name], open);
    var s := start + a + t;
    assert s + [Lit(" "), margin] + [name] == s + [Lit(" ")] + [margin, name];
  }

  function Bracket(level: nat, b: string): seq<Piece> { if level > 0 then [Lit(b)] else [] }

  lemma BlanksJoin(a: nat, b: nat)
    requires b <= 32
    ensures Blanks(a) + SPACES[..b] == Blanks(a + b) && SPACES[..32] == SPACES
  {
    assert forall i | 0 <= i < 32 :: SPACES[i] == ' ';
  }

  lemma NoBlanks()
    ensures Blanks(0) == ""
  {
  }

  lemma NoOutput(s: seq<Piece>)
    ensures s + [] == s
  {
  }

  lemma Flat3(s: seq<Piece>, a: seq<Piece>, b: seq<Piece>, c: seq<Piece>)
    ensures s + (a + b + c) == s + a + b + c
  {
    Assoc(s, a + b, c);
    Assoc(s, a, b);
  }

  lemma Flat4(s: seq<Piece>, a: seq<Piece>, b: seq<Piece>, c: seq<Piece>, d: seq<Piece>)
    ensures s + (a + b + c + d) == s + a + b + c + d
  {
    Assoc(s, a + b + c, d);
    Flat3(s, a, b, c);
  }

  lemma Flat5(s: seq<Piece>, a: seq<Piece>, b: seq<Piece>, c: seq<Piece>, d: seq<Piece>, e: seq<Piece>)
    ensures s + (a + b + c + d + e) == s + a + b + c + d + e
  {
    Assoc(s, a + b + c + d, e);
    Flat4(s, a, b, c, d);
  }

  lemma ArgWritten(before: seq<Piece>, args: seq<Expr>, level: nat, indent: nat)
    requires args != []
    ensures before + ShowArgs(args, level, indent)
         == before + ShowExpr(args[0], level, indent) + ShowMoreArgs(args[1..], level, indent)
    ensures before + ShowMoreArgs(args, level, indent)
         == before + [Lit(", ")] + ShowExpr(args[0], level, indent) + ShowMoreArgs(args[1..], level, indent)
  {
  }
}
