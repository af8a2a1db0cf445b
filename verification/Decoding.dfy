/** How to read statements, functions and modules back from what the printer writes, and
    that nothing of a tree is lost on the way. */
module Decoding {
  import opened Ast
  import opened Printing
  import opened Sequences
  import RoundTrip

  // ----- decoding -----

  /** Exactly so many blanks. */
  predicate Indented(p: Piece, n: nat) { p.Pad? && |p.s| == n && forall i | 0 <= i < n :: p.s[i] == ' ' }

  /** A line that is indented by so much and begins with the text. */
  predicate Begins(s: seq<Piece>, n: nat, text: string) { |s| >= 2 && Indented(s[0], n) && s[1] == Lit(text) }

  function DecodeStmt(s: seq<Piece>, n: nat): (r: Decoded<Stmt>)
    ensures r.Got? ==> |r.rest| < |s|
    decreases |s|, 3
  {
    if |s| < 2 || !Indented(s[0], n) then Fail
    else if s[1].Ident? then DecodeNamed(s[1..])
    else if !s[1].Lit? then Fail
    else
      match s[1].s
      case "assert " =>
        var (e, r) :- DecodeExpr(s[2..], 0);
        Got(Assert(e), r)
      case "read " => if |s| > 2 && s[2].Ident? then Got(Input(s[2].name), s[3..]) else Fail
      case "abort" => Got(Abort, s[2..])
      case "print " =>
        var (e, r) :- DecodeExpr(s[2..], 1);
        Got(Print(e), r)
      case "return" => DecodeReturn(s[2..])
      case "branch " => DecodeBranch(s[2..], n)
      case "do {\n" => DecodeLoop(s[2..], n)
      case _ => DecodeVardecl(s[1..])
  }

  /** An assignment or a call. */
  function DecodeNamed(s: seq<Piece>): (r: Decoded<Stmt>)
    requires s != [] && s[0].Ident?
    ensures r.Got? ==> |r.rest| < |s|
    decreases |s|, 0
  {
    if |s| > 1 && s[1] == Lit(" = ") then
      var (e, r) :- DecodeExpr(s[2..], 1);
      Got(Assign(s[0].name, e), r)
    else
      var (e, r) :- DecodeOperand(s);
      Got(ExprStmt(e), r)
  }

  function DecodeReturn(s: seq<Piece>): (r: Decoded<Stmt>)
    ensures r.Got? ==> |r.rest| <= |s|
    decreases |s|, 0
  {
    if s != [] && s[0] == Lit(" ") then
      var (e, r) :- DecodeExpr(s[1..], 1);
      Got(Return(Some(e)), r)
    else Got(Return(None), s)
  }

  function BaseNamed(s: string): Option<BaseType> {
    match s
    case "void" => Some(VOID)
    case "int" => Some(BaseType.INTEGER)
    case "char" => Some(CHAR)
    case "float" => Some(BaseType.FLOAT)
    case "bool" => Some(BOOL)
    case "double" => Some(DOUBLE)
    case _ => None
  }

  function DecodeType(s: seq<Piece>): (r: Decoded<VarType>)
    ensures r.Got? ==> |r.rest| < |s|
  {
    if s == [] || !s[0].Lit? || BaseNamed(s[0].s).None? then Fail
    else if |s| > 1 && s[1] == Lit("*") then Got(VarType(BaseNamed(s[0].s).value, true), s[2..])
    else Got(VarType(BaseNamed(s[0].s).value, false), s[1..])
  }

  function DecodeVardecl(s: seq<Piece>): (r: Decoded<Stmt>)
    ensures r.Got? ==> |r.rest| < |s|
    decreases |s|, 0
  {
    var (t, r) :- DecodeType(s);
    if |r| < 2 || r[0] != Lit(" ") || !r[1].Ident? then Fail
    else if |r| > 2 && r[2] == Lit(" = ") then
      var (e, r1) :- DecodeExpr(r[3..], 0);
      Got(Vardecl(r[1].name, t, Some(e)), r1)
    else Got(Vardecl(r[1].name, t, None), r[2..])
  }

  function DecodeLoop(s: seq<Piece>, n: nat): (r: Decoded<Stmt>)
    ensures r.Got? ==> |r.rest| <= |s|
    decreases |s|, 5
  {
    var (body, r) :- DecodeBody(s, n + 2);
    if !Begins(r, n, "} while ") then Fail
    else
      var (cond, r1) :- DecodeExpr(r[2..], 0);
      Got(Loop(body, cond), r1)
  }

  /** Statements, each on a line indented by `n`, up to a closing brace two blanks to the left. */
  function DecodeBody(s: seq<Piece>, n: nat): (r: Decoded<seq<Stmt>>)
    ensures r.Got? ==> |r.rest| <= |s|
    decreases |s|, 4
  {
    if n >= 2 && (Begins(s, n - 2, "}\n") || Begins(s, n - 2, "} while ")) then Got([], s)
    else
      var (x, r) :- DecodeStmt(s, n);
      if r == [] || r[0] != Lit("\n") then Fail
      else
        var (more, r1) :- DecodeBody(r[1..], n);
        Got([x] + more, r1)
  }

  function DecodeBranch(s: seq<Piece>, n: nat): (r: Decoded<Stmt>)
    ensures r.Got? ==> |r.rest| <= |s|
    decreases |s|, 2
  {
    if |s| < 2 || !s[0].Ident? || s[1] != Lit(" {\n") then Fail
    else
      var (cases, r) :- DecodeCases(s[0].name, s[2..], n + 2);
      var (els, r1) :- DecodeElse(r, n + 2);
      if Begins(r1, n, "}") then Got(Branch(s[0].name, cases, els), r1[2..]) else Fail
  }

  function DecodeCases(lead: string, s: seq<Piece>, n: nat): (r: Decoded<seq<Case>>)
    ensures r.Got? ==> |r.rest| <= |s|
    decreases |s|, 5
  {
    if !Begins(s, n, "case") then Got([], s)
    else
      var (c, r) :- DecodeCase(lead, s[2..], n);
      var (more, r1) :- DecodeCases(lead, r, n);
      Got([c] + more, r1)
  }

  function DecodeCase(lead: string, s: seq<Piece>, n: nat): (r: Decoded<Case>)
    ensures r.Got? ==> |r.rest| <= |s|
    decreases |s|, 5
  {
    var (cond, r) :- DecodeCondition(lead, s);
    if r == [] || r[0] != Lit(" {\n") then Fail
    else
      var (body, r1) :- DecodeBody(r[1..], n + 2);
      if Begins(r1, n, "}\n") then Got(Case(cond, body), r1[2..]) else Fail
  }

  function DecodeElse(s: seq<Piece>, n: nat): (r: Decoded<Else>)
    ensures r.Got? ==> |r.rest| <= |s|
    decreases |s|, 5
  {
    if !Begins(s, n, "else {\n") then Got(NoElse, s)
    else
      var (body, r) :- DecodeBody(s[2..], n + 2);
      if Begins(r, n, "}\n") then Got(Else(body), r[2..]) else Fail
  }

  function DecodeParam(s: seq<Piece>, n: nat): (r: Decoded<Param>)
    ensures r.Got? ==> |r.rest| < |s|
  {
    if s == [] || !Indented(s[0], n) then Fail
    else
      var (t, r) :- DecodeType(s[1..]);
      if |r| < 2 || r[0] != Lit(" ") || !r[1].Ident? then Fail else Got(Param(r[1].name, t), r[2..])
  }

  function DecodeParams(s: seq<Piece>, n: nat): (r: Decoded<seq<Param>>)
    ensures r.Got? ==> |r.rest| <= |s|
  {
    if Begins(s, n, ")") then Got([], s[2..])
    else
      var (p, r) :- DecodeParam(s, n);
      var (more, r1) :- DecodeMoreParams(r, n);
      Got([p] + more, r1)
  }

  function DecodeMoreParams(s: seq<Piece>, n: nat): (r: Decoded<seq<Param>>)
    ensures r.Got? ==> |r.rest| <= |s|
    decreases |s|
  {
    if Begins(s, n, ")") then Got([], s[2..])
    else if !Begins(s, n, ", ") then Fail
    else
      var (p, r) :- DecodeParam(s[2..], n);
      var (more, r1) :- DecodeMoreParams(r, n);
      Got([p] + more, r1)
  }

  /** Result type, name and parameters; the body is still missing. */
  function DecodeHeader(s: seq<Piece>, n: nat): (r: Decoded<Function>)
    ensures r.Got? ==> |r.rest| < |s| && r.value.body == []
  {
    if s == [] || !Indented(s[0], n) then Fail
    else
      var (t, r) :- DecodeType(s[1..]);
      if |r| < 3 || r[0] != Lit(" ") || !Indented(r[1], n) || !(r[2] == Lit("main") || r[2].Ident?) || !Begins(r[3..], n, "(") then Fail
      else
        var (ps, r1) :- DecodeParams(r[5..], n);
        Got(Function(if r[2].Ident? then r[2].name else "", t, ps, []), r1)
  }

  /** The lines of a function, up to its closing brace. */
  function DecodeLines(s: seq<Piece>, n: nat): (r: Decoded<seq<Stmt>>)
    ensures r.Got? ==> |r.rest| <= |s|
    decreases |s|
  {
    if s != [] && s[0] == Lit("}") then Got([], s)
    else
      var (x, r) :- DecodeStmt(s, n);
      if !Begins(r, n, "\n") then Fail
      else
        var (more, r1) :- DecodeLines(r[2..], n);
        Got([x] + more, r1)
  }

  function DecodeFunction(s: seq<Piece>, n: nat): (r: Decoded<Function>)
    ensures r.Got? ==> |r.rest| < |s|
  {
    var (f, r) :- DecodeHeader(s, n);
    if r == [] then Fail
    else if r[0] == Lit("\n\n") then Got(f, r[1..])
    else if r[0] != Lit(" {\n") then Fail
    else
      var (body, r1) :- DecodeLines(r[1..], n + 2);
      if |r1| < 2 || r1[0] != Lit("}") || r1[1] != Lit("\n\n") then Fail else Got(f.(body := body), r1[2..])
  }

  /** Functions, and last the entry point, if there is one. */
  function DecodeModule(s: seq<Piece>, n: nat): Decoded<Module>
    decreases |s|
  {
    if s == [] then Got(Module([], None), [])
    else
      var (f, r) :- DecodeFunction(s, n);
      if f.name == "" then (if r == [] then Got(Module([], Some(f)), []) else Fail)
      else
        var (m, r1) :- DecodeModule(r, n);
        Got(Module([f] + m.functions, m.entry), r1)
  }

  // ----- the trees -----

  /** Semi-expressions as conditions of cases only, comparing the lead variable, and no
      expression but a call as a statement: so are all trees the parser builds. */
  predicate Plain(s: Stmt)
    decreases s
  {
    match s
    case Assert(e) => Whole(e)
    case Branch(lead, cases, els) => PlainCases(lead, cases) && PlainElse(els)
    case Vardecl(_, _, init) => init.Some? ==> Whole(init.value)
    case Loop(body, cond) => PlainBody(body) && Whole(cond)
    case Return(value) => value.Some? ==> Whole(value.value)
    case Print(e) => Whole(e)
    case Assign(_, e) => Whole(e)
    case ExprStmt(e) => e.Call? && Whole(e)
    case _ => true
  }

  predicate PlainBody(body: seq<Stmt>)
    decreases body
  {
    body == [] || (Plain(body[0]) && PlainBody(body[1..]))
  }

  predicate PlainCase(lead: string, c: Case)
    decreases c
  {
    c.cond.Binary? && c.cond.semi && c.cond.left == Identifier(lead) && Whole(c.cond.right) && PlainBody(c.body)
  }

  predicate PlainCases(lead: string, cs: seq<Case>)
    decreases cs
  {
    cs == [] || (PlainCase(lead, cs[0]) && PlainCases(lead, cs[1..]))
  }

  predicate PlainElse(els: Else)
    decreases els
  {
    els.NoElse? || PlainBody(els.body)
  }

  /** The entry point is the one function without a name. */
  predicate PlainModule(m: Module) {
    && (forall f | f in m.functions :: f.name != "" && PlainBody(f.body))
    && (m.entry.Some? ==> m.entry.value.name == "" && PlainBody(m.entry.value.body))
  }

  // ----- the trees of the parser are plain -----

  lemma {:induction false} ShapedWhole(e: Expr)
    requires RoundTrip.Shaped(e)
    ensures Whole(e)
    decreases e
  {
    match e
    case Binary(_, l, r, _) =>
      ShapedWhole(l);
      ShapedWhole(r);
    case Call(_, args) => ShapedAllWhole(args);
    case _ =>
  }

  lemma {:induction false} ShapedAllWhole(args: seq<Expr>)
    requires RoundTrip.AllShaped(args)
    ensures AllWhole(args)
    decreases args
  {
    if args != [] {
      ShapedWhole(args[0]);
      ShapedAllWhole(args[1..]);
    }
  }

  lemma ShapedMaybeWhole(e: Option<Expr>)
    requires RoundTrip.MaybeShaped(e)
    ensures e.Some? ==> Whole(e.value)
  {
    if e.Some? {
      ShapedWhole(e.value);
    }
  }

  lemma {:induction false} ShapedPlain(s: Stmt)
    requires RoundTrip.ShapedStmt(s)
    ensures Plain(s)
    decreases s
  {
    match s
    case Assert(e) => ShapedWhole(e);
    case Branch(lead, cases, els) =>
      ShapedCasesPlain(lead, cases);
      if els.Else? {
        ShapedBodyPlain(els.body);
      }
    case Vardecl(_, _, init) => ShapedMaybeWhole(init);
    case Loop(body, cond) =>
      ShapedBodyPlain(body);
      ShapedWhole(cond);
    case Return(value) => ShapedMaybeWhole(value);
    case Print(e) => ShapedWhole(e);
    case Assign(_, e) => ShapedWhole(e);
    case ExprStmt(e) => ShapedWhole(e);
    case _ =>
  }

  lemma {:induction false} ShapedBodyPlain(body: seq<Stmt>)
    requires RoundTrip.ShapedBody(body)
    ensures PlainBody(body)
    decreases body
  {
    if body != [] {
      ShapedPlain(body[0]);
      ShapedBodyPlain(body[1..]);
    }
  }

  lemma {:induction false} ShapedCasesPlain(lead: string, cs: seq<Case>)
    requires RoundTrip.ShapedCases(lead, cs)
    ensures PlainCases(lead, cs)
    decreases cs
  {
    if cs != [] {
      ShapedWhole(cs[0].cond.right);
      ShapedBodyPlain(cs[0].body);
      ShapedCasesPlain(lead, cs[1..]);
    }
  }

  lemma ShapedModulePlain(m: Module)
    requires RoundTrip.ShapedModule(m) && forall f | f in m.functions :: f.name != ""
    ensures PlainModule(m)
  {
    forall f | f in m.functions ensures PlainBody(f.body) { ShapedBodyPlain(f.body); }
    if m.entry.Some? {
      ShapedBodyPlain(m.entry.value.body);
    }
  }

  // ----- statements -----

  /** What follows a statement: the end of its line, indented or not. */
  predicate LineEnd(rest: seq<Piece>) { rest != [] && (rest[0] == Lit("\n") || rest[0].Pad?) }

  lemma One(a: Piece, x: seq<Piece>, rest: seq<Piece>)
    ensures var s := [a] + x + rest; s == [a] + (x + rest) && s[0] == a && s[1..] == x + rest
  {
    Assoc([a], x, rest);
  }

  lemma Two(a: Piece, b: Piece, x: seq<Piece>, rest: seq<Piece>)
    ensures var s := [a, b] + x + rest; s == [a, b] + (x + rest) && s[0] == a && s[1] == b && s[2..] == x + rest
  {
    Assoc([a, b], x, rest);
  }

  lemma Three(a: Piece, b: Piece, c: Piece, x: seq<Piece>, rest: seq<Piece>)
    ensures var s := [a, b, c] + x + rest; |s| >= 3 && s[0] == a && s[1] == b && s[2] == c && s[3..] == x + rest
  {
    Assoc([a, b, c], x, rest);
  }

  lemma {:induction false} StmtDecodes(s: Stmt, indent: nat, rest: seq<Piece>)
    requires Plain(s) && LineEnd(rest)
    ensures DecodeStmt(ShowStmt(s, 0, indent) + rest, indent) == Got(s, rest)
    decreases s, 1
  {
    hide DecodeStmt, Whole, PlainBody, PlainCases, PlainElse;
    match s
    case Return(_) => ReturnDecodes(s, indent, rest);
    case Assign(_, _) => AssignDecodes(s, indent, rest);
    case ExprStmt(e) => CallDecodes(e, indent, rest);
    case Vardecl(_, _, _) => VardeclDecodes(s, indent, rest);
    case Loop(_, _) => LoopDecodes(s, indent, rest);
    case Branch(_, _, _) => BranchDecodes(s, indent, rest);
    case Assert(e) => AssertDecodes(e, indent, rest);
    case Print(e) => PrintDecodes(e, indent, rest);
    case _ => WordDecodes(s, indent, rest);
  }

  lemma AssertDecodes(e: Expr, indent: nat, rest: seq<Piece>)
    requires Whole(e) && LineEnd(rest)
    ensures DecodeStmt([Margin(indent), Lit("assert ")] + ShowExpr(e, 0, indent) + rest, indent) == Got(Assert(e), rest)
  {
    hide ShowExpr, DecodeExpr, Margin, Indented, Whole, DecodeNamed, DecodeReturn, DecodeBranch, DecodeLoop, DecodeVardecl;
    hide ShowType, ShowCases, ShowElse, ShowBody, PlainBody, PlainCases, PlainElse, ShowStmt;
    MarginIs(indent);
    Two(Margin(indent), Lit("assert "), ShowExpr(e, 0, indent), rest);
    ExprDecodes(e, 0, indent, rest);
  }

  lemma PrintDecodes(e: Expr, indent: nat, rest: seq<Piece>)
    requires Whole(e) && LineEnd(rest)
    ensures DecodeStmt([Margin(indent), Lit("print ")] + ShowExpr(e, 1, indent) + rest, indent) == Got(Print(e), rest)
  {
    hide ShowExpr, DecodeExpr, Margin, Indented, Whole, DecodeNamed, DecodeReturn, DecodeBranch, DecodeLoop, DecodeVardecl;
    hide ShowType, ShowCases, ShowElse, ShowBody, PlainBody, PlainCases, PlainElse, ShowStmt;
    MarginIs(indent);
    Two(Margin(indent), Lit("print "), ShowExpr(e, 1, indent), rest);
    ExprDecodes(e, 1, indent, rest);
  }

  lemma WordDecodes(s: Stmt, indent: nat, rest: seq<Piece>)
    requires s.Input? || s.Abort?
    ensures DecodeStmt(ShowStmt(s, 0, indent) + rest, indent) == Got(s, rest)
  {
    hide Margin, Indented, DecodeNamed, DecodeReturn, DecodeBranch, DecodeLoop, DecodeVardecl;
    MarginIs(indent);
    if s.Input? {
      Three(Margin(indent), Lit("read "), Ident(s.name), [], rest);
    } else {
      Two(Margin(indent), Lit("abort"), [], rest);
    }
  }

  lemma MarginIs(indent: nat)
    ensures Indented(Margin(indent), indent) && Margin(indent).Pad?
  {
  }

  lemma ReturnDecodes(s: Stmt, indent: nat, rest: seq<Piece>)
    requires s.Return? && Plain(s) && LineEnd(rest)
    ensures DecodeStmt(ShowStmt(s, 0, indent) + rest, indent) == Got(s, rest)
  {
    hide ShowExpr, DecodeExpr, Margin, Indented, Whole;
    var m := Margin(indent);
    MarginIs(indent);
    if s.value.Some? {
      var shown := ShowExpr(s.value.value, 1, indent);
      Two(m, Lit("return"), [Lit(" ")] + shown, rest);
      One(Lit(" "), shown, rest);
      ExprDecodes(s.value.value, 1, indent, rest);
    } else {
      Two(m, Lit("return"), [], rest);
      assert [] + rest == rest;
    }
  }

  lemma AssignDecodes(s: Stmt, indent: nat, rest: seq<Piece>)
    requires s.Assign? && Plain(s) && LineEnd(rest)
    ensures DecodeStmt(ShowStmt(s, 0, indent) + rest, indent) == Got(s, rest)
  {
    hide ShowExpr, DecodeExpr, Margin, Indented, Whole;
    var m, shown := Margin(indent), ShowExpr(s.e, 1, indent);
    MarginIs(indent);
    Three(m, Ident(s.name), Lit(" = "), shown, rest);
    var all := ShowStmt(s, 0, indent) + rest;
    assert all[1..][2..] == all[3..];
    ExprDecodes(s.e, 1, indent, rest);
  }

  lemma CallDecodes(e: Expr, indent: nat, rest: seq<Piece>)
    requires e.Call? && Whole(e) && LineEnd(rest)
    ensures DecodeStmt(ShowExpr(e, 0, indent) + rest, indent) == Got(ExprStmt(e), rest)
  {
    hide DecodeOperand, Whole, ShowExpr, Margin, Indented;
    MarginIs(indent);
    OperandDecodes(e, 1, indent, rest);
    TopCall(e, indent, rest);
    CallStart(e, indent, rest);
  }

  lemma CallStart(e: Expr, indent: nat, rest: seq<Piece>)
    requires e.Call?
    ensures var s := ShowExpr(e, 1, indent) + rest; |s| >= 2 && s[0] == Ident(e.fn) && s[1] == Lit("(")
    ensures (ShowExpr(e, 0, indent) + rest)[0] == Margin(indent)
  {
  }

  lemma TypeDecodes(t: VarType, rest: seq<Piece>)
    requires rest != [] && rest[0] != Lit("*")
    ensures var s := ShowType(t) + rest; DecodeType(s) == Got(t, rest) && s[0] == Lit(BaseName(t.base))
  {
    var s := ShowType(t) + rest;
    if t.pointer {
      assert s[2..] == rest;
    } else {
      assert s[1..] == rest;
    }
  }

  lemma VardeclDecodes(s: Stmt, indent: nat, rest: seq<Piece>)
    requires s.Vardecl? && Plain(s) && LineEnd(rest)
    ensures DecodeStmt(ShowStmt(s, 0, indent) + rest, indent) == Got(s, rest)
  {
    hide ShowExpr, DecodeExpr, DecodeType, ShowType, Margin, Indented, Whole;
    var m, t := Margin(indent), ShowType(s.ty);
    MarginIs(indent);
    var init := match s.init case None => [] case Some(e) => [Lit(" = ")] + ShowExpr(e, 0, indent);
    var tail := [Lit(" "), Ident(s.name)] + (init + rest);
    Assoc([m] + t + [Lit(" "), Ident(s.name)], init, rest);
    Assoc([m] + t, [Lit(" "), Ident(s.name)], init + rest);
    One(m, t, tail);
    assert ShowStmt(s, 0, indent) + rest == [m] + (t + tail);
    TypeDecodes(s.ty, tail);
    assert tail[2..] == init + rest;
    if s.init.Some? {
      One(Lit(" = "), ShowExpr(s.init.value, 0, indent), rest);
      assert tail[3..] == (init + rest)[1..];
      ExprDecodes(s.init.value, 0, indent, rest);
    } else {
      assert init + rest == rest;
    }
    DeclaredTypes(s.ty.base);
  }

  /** No type is named like the start of another statement. */
  lemma DeclaredTypes(t: BaseType)
    ensures BaseName(t) !in {"assert ", "read ", "abort", "print ", "return", "branch ", "do {\n", "}\n", "} while ", "}"}
  {
  }

  /** A statement does not begin like the end of a block. */
  lemma StmtStart(s: Stmt, indent: nat, rest: seq<Piece>)
    requires Plain(s)
    ensures var all := ShowStmt(s, 0, indent) + rest;
            |all| >= 2 && all[0].Pad? && all[1] !in {Lit("}\n"), Lit("} while "), Lit("}")}
  {
    hide Whole, PlainBody, PlainCases, PlainElse, ShowCases, ShowElse, ShowBody, ShowExpr;
    match s
    case ExprStmt(e) =>
      TopCall(e, indent, rest);
      CallStart(e, indent, rest);
    case Vardecl(_, t, _) => DeclaredTypes(t.base);
    case _ =>
  }

  lemma {:induction false} LoopDecodes(s: Stmt, indent: nat, rest: seq<Piece>)
    requires s.Loop? && Plain(s) && LineEnd(rest)
    ensures DecodeStmt(ShowStmt(s, 0, indent) + rest, indent) == Got(s, rest)
    decreases s, 0
  {
    hide ShowExpr, DecodeExpr, DecodeBody, ShowBody, Margin, Indented, Whole, PlainBody;
    var m, body, cond := Margin(indent), ShowBody(s.body, 0, indent + 2), ShowExpr(s.cond, 0, indent);
    MarginIs(indent);
    var tail := [m, Lit("} while ")] + (cond + rest);
    Assoc([m, Lit("do {\n")] + body + [m, Lit("} while ")], cond, rest);
    Assoc([m, Lit("do {\n")] + body, [m, Lit("} while ")], cond + rest);
    Two(m, Lit("do {\n"), body, tail);
    BodyDecodes(s.body, indent + 2, tail);
    assert tail[2..] == cond + rest;
    ExprDecodes(s.cond, 0, indent, rest);
  }

  lemma {:induction false} BodyDecodes(body: seq<Stmt>, indent: nat, rest: seq<Piece>)
    requires PlainBody(body) && indent >= 2 && (Begins(rest, indent - 2, "}\n") || Begins(rest, indent - 2, "} while "))
    ensures DecodeBody(ShowBody(body, 0, indent) + rest, indent) == Got(body, rest)
    decreases body
  {
    hide DecodeStmt, ShowStmt, Plain;
    if body == [] {
      assert [] + rest == rest;
    } else {
      var first, more := ShowStmt(body[0], 0, indent), ShowBody(body[1..], 0, indent);
      Assoc(first + [Lit("\n")], more, rest);
      Assoc(first, [Lit("\n")], more + rest);
      var tail := [Lit("\n")] + (more + rest);
      StmtDecodes(body[0], indent, tail);
      StmtStart(body[0], indent, tail);
      assert tail[1..] == more + rest;
      BodyDecodes(body[1..], indent, rest);
      assert [body[0]] + body[1..] == body;
    }
  }

  lemma {:induction false} CaseDecodes(lead: string, c: Case, indent: nat, rest: seq<Piece>)
    requires PlainCase(lead, c)
    ensures var s := ShowCase(c, 0, indent) + rest; Begins(s, indent, "case") && DecodeCase(lead, s[2..], indent) == Got(c, rest)
    decreases c
  {
    hide ShowExpr, DecodeCondition, DecodeBody, ShowBody, Margin, Indented, Whole, PlainBody;
    var m, cond, body := Margin(indent), ShowExpr(c.cond, 0, indent), ShowBody(c.body, 0, indent + 2);
    MarginIs(indent);
    var end := [m, Lit("}\n")] + rest;
    var tail := [Lit(" {\n")] + (body + end);
    Assoc([m, Lit("case")] + cond + [Lit(" {\n")] + body, [m, Lit("}\n")], rest);
    Assoc([m, Lit("case")] + cond + [Lit(" {\n")], body, end);
    Assoc([m, Lit("case")] + cond, [Lit(" {\n")], body + end);
    Two(m, Lit("case"), cond, tail);
    ConditionDecodes(lead, c.cond.op, c.cond.right, indent, tail);
    assert tail[1..] == body + end && end[2..] == rest;
    BodyDecodes(c.body, indent + 2, end);
  }

  lemma {:induction false} CasesDecode(lead: string, cases: seq<Case>, indent: nat, rest: seq<Piece>)
    requires PlainCases(lead, cases) && !Begins(rest, indent, "case")
    ensures DecodeCases(lead, ShowCases(cases, 0, indent) + rest, indent) == Got(cases, rest)
    decreases cases
  {
    hide DecodeCase, ShowCase, PlainCase;
    if cases == [] {
      assert [] + rest == rest;
    } else {
      var more := ShowCases(cases[1..], 0, indent);
      Assoc(ShowCase(cases[0], 0, indent), more, rest);
      CaseDecodes(lead, cases[0], indent, more + rest);
      CasesDecode(lead, cases[1..], indent, rest);
      assert [cases[0]] + cases[1..] == cases;
    }
  }

  lemma {:induction false} ElseDecodes(els: Else, indent: nat, rest: seq<Piece>)
    requires PlainElse(els) && indent >= 2 && Begins(rest, indent - 2, "}")
    ensures var s := ShowElse(els, 0, indent) + rest; DecodeElse(s, indent) == Got(els, rest) && !Begins(s, indent, "case")
    decreases els
  {
    hide DecodeBody, ShowBody, Margin, Indented, PlainBody;
    if els.NoElse? {
      assert [] + rest == rest;
    } else {
      var m, body := Margin(indent), ShowBody(els.body, 0, indent + 2);
      MarginIs(indent);
      var end := [m, Lit("}\n")] + rest;
      Assoc([m, Lit("else {\n")] + body, [m, Lit("}\n")], rest);
      Two(m, Lit("else {\n"), body, end);
      assert end[2..] == rest;
      BodyDecodes(els.body, indent + 2, end);
    }
  }

  lemma {:induction false} BranchDecodes(s: Stmt, indent: nat, rest: seq<Piece>)
    requires s.Branch? && Plain(s)
    ensures DecodeStmt(ShowStmt(s, 0, indent) + rest, indent) == Got(s, rest)
    decreases s, 0
  {
    hide DecodeCases, DecodeElse, ShowCases, ShowElse, Margin, Indented, PlainCases, PlainElse;
    var m, cases, els := Margin(indent), ShowCases(s.cases, 0, indent + 2), ShowElse(s.els, 0, indent + 2);
    MarginIs(indent);
    var end := [m, Lit("}")] + rest;
    var head := [m, Lit("branch "), Ident(s.lead), Lit(" {\n")];
    Assoc(head + cases + els, [m, Lit("}")], rest);
    Assoc(head + cases, els, end);
    Assoc(head, cases, els + end);
    var all := head + (cases + (els + end));
    assert ShowStmt(s, 0, indent) + rest == all;
    assert all[2..][2..] == cases + (els + end) && end[2..] == rest;
    ElseDecodes(s.els, indent + 2, end);
    CasesDecode(s.lead, s.cases, indent + 2, els + end);
  }

  // ----- functions and modules -----

  lemma ParamDecodes(p: Param, indent: nat, rest: seq<Piece>)
    ensures DecodeParam(ShowParam(p, indent) + rest, indent) == Got(p, rest)
  {
    hide DecodeType, ShowType, Margin, Indented;
    var m, t := Margin(indent), ShowType(p.ty);
    MarginIs(indent);
    var tail := [Lit(" "), Ident(p.name)] + rest;
    Assoc([m] + t, [Lit(" "), Ident(p.name)], rest);
    One(m, t, tail);
    TypeDecodes(p.ty, tail);
    assert tail[2..] == rest;
  }

  lemma ParamStart(p: Param, indent: nat, rest: seq<Piece>)
    ensures !Begins(ShowParam(p, indent) + rest, indent, ")")
  {
  }

  lemma {:induction false} MoreParamsDecode(ps: seq<Param>, indent: nat, rest: seq<Piece>)
    ensures DecodeMoreParams(ShowMoreParams(ps, indent) + ([Margin(indent), Lit(")")] + rest), indent) == Got(ps, rest)
    decreases ps
  {
    hide DecodeParam, ShowParam, Margin, Indented;
    var m := Margin(indent);
    MarginIs(indent);
    var end := [m, Lit(")")] + rest;
    if ps == [] {
      assert [] + end == end && end[2..] == rest;
    } else {
      var first, more := ShowParam(ps[0], indent), ShowMoreParams(ps[1..], indent);
      Assoc([m, Lit(", ")] + first, more, end);
      Two(m, Lit(", "), first, more + end);
      ParamDecodes(ps[0], indent, more + end);
      MoreParamsDecode(ps[1..], indent, rest);
      assert [ps[0]] + ps[1..] == ps;
    }
  }

  lemma ParamsDecode(ps: seq<Param>, indent: nat, rest: seq<Piece>)
    ensures DecodeParams(ShowParams(ps, indent) + ([Margin(indent), Lit(")")] + rest), indent) == Got(ps, rest)
  {
    hide DecodeParam, ShowParam, Margin, Indented, DecodeMoreParams, ShowMoreParams;
    var end := [Margin(indent), Lit(")")] + rest;
    MarginIs(indent);
    if ps == [] {
      assert [] + end == end && end[2..] == rest;
    } else {
      var first, more := ShowParam(ps[0], indent), ShowMoreParams(ps[1..], indent);
      Assoc(first, more, end);
      ParamStart(ps[0], indent, more + end);
      ParamDecodes(ps[0], indent, more + end);
      MoreParamsDecode(ps[1..], indent, rest);
      assert [ps[0]] + ps[1..] == ps;
    }
  }

  lemma HeaderDecodes(f: Function, indent: nat, rest: seq<Piece>)
    ensures DecodeHeader(ShowHeader(f, indent) + rest, indent) == Got(f.(body := []), rest)
  {
    hide DecodeType, ShowType, Margin, Indented, DecodeParams, ShowParams;
    var m, t, ps := Margin(indent), ShowType(f.ret), ShowParams(f.params, indent);
    var name := if f.name == "" then Lit("main") else Ident(f.name);
    MarginIs(indent);
    var end := [m, Lit(")")] + rest;
    var tail := [Lit(" "), m] + ([name] + ([m, Lit("(")] + (ps + end)));
    Assoc([m] + t + [Lit(" "), m] + [name] + [m, Lit("(")] + ps, [m, Lit(")")], rest);
    Assoc([m] + t + [Lit(" "), m] + [name] + [m, Lit("(")], ps, end);
    Assoc([m] + t + [Lit(" "), m] + [name], [m, Lit("(")], ps + end);
    Assoc([m] + t + [Lit(" "), m], [name], [m, Lit("(")] + (ps + end));
    Assoc([m] + t, [Lit(" "), m], [name] + ([m, Lit("(")] + (ps + end)));
    One(m, t, tail);
    TypeDecodes(f.ret, tail);
    assert tail[5..] == ps + end && tail[3..] == [m, Lit("(")] + (ps + end);
    ParamsDecode(f.params, indent, rest);
  }

  lemma {:induction false} LinesDecode(body: seq<Stmt>, indent: nat, rest: seq<Piece>)
    requires PlainBody(body) && rest != [] && rest[0] == Lit("}")
    ensures DecodeLines(ShowLines(body, 0, indent) + rest, indent) == Got(body, rest)
    decreases body
  {
    hide DecodeStmt, ShowStmt, Plain, Margin, Indented;
    if body == [] {
      assert [] + rest == rest;
    } else {
      var first, more := ShowStmt(body[0], 0, indent), ShowLines(body[1..], 0, indent);
      MarginIs(indent);
      Assoc(first + [Margin(indent), Lit("\n")], more, rest);
      Assoc(first, [Margin(indent), Lit("\n")], more + rest);
      var tail := [Margin(indent), Lit("\n")] + (more + rest);
      StmtDecodes(body[0], indent, tail);
      StmtStart(body[0], indent, tail);
      assert tail[2..] == more + rest;
      LinesDecode(body[1..], indent, rest);
      assert [body[0]] + body[1..] == body;
    }
  }

  lemma FunctionDecodes(f: Function, indent: nat, rest: seq<Piece>)
    requires PlainBody(f.body)
    ensures DecodeFunction(ShowFunction(f, 0, indent) + rest, indent) == Got(f, rest)
  {
    hide DecodeHeader, ShowHeader, DecodeLines, ShowLines, PlainBody;
    var head, lines := ShowHeader(f, indent), ShowLines(f.body, 0, indent + 2);
    var end := [Lit("\n\n")] + rest;
    assert end[1..] == rest;
    if f.body == [] {
      assert head + [] == head;
      Assoc(head, [Lit("\n\n")], rest);
      HeaderDecodes(f, indent, end);
    } else {
      var close := [Lit("}")] + end;
      assert close[2..] == rest;
      var inner := [Lit(" {\n")] + lines + [Lit("}")];
      Assoc(head + inner, [Lit("\n\n")], rest);
      Assoc(head, inner, end);
      Assoc([Lit(" {\n")] + lines, [Lit("}")], end);
      One(Lit(" {\n"), lines, close);
      HeaderDecodes(f, indent, inner + end);
      LinesDecode(f.body, indent + 2, close);
    }
  }

  lemma {:induction false} FunctionsDecode(fs: seq<Function>, entry: Option<Function>, indent: nat)
    requires PlainModule(Module(fs, entry))
    ensures DecodeModule(ShowModule(Module(fs, entry), 0, indent), indent) == Got(Module(fs, entry), [])
    decreases fs
  {
    hide DecodeFunction, ShowFunction, PlainBody;
    if fs == [] {
      match entry
      case None => assert ShowModule(Module([], None), 0, indent) == [];
      case Some(f) =>
        FunctionDecodes(f, indent, []);
        assert [] + ShowFunction(f, 0, indent) == ShowFunction(f, 0, indent) + [];
        assert ShowFunction(f, 0, indent) != [] by { Shown(f, indent); }
    } else {
      var rest := ShowModule(Module(fs[1..], entry), 0, indent);
      Assoc(ShowFunction(fs[0], 0, indent), ShowFunctions(fs[1..], 0, indent),
            match entry case None => [] case Some(f) => ShowFunction(f, 0, indent));
      FunctionDecodes(fs[0], indent, rest);
      FunctionsDecode(fs[1..], entry, indent);
      assert [fs[0]] + fs[1..] == fs;
      Shown(fs[0], indent);
    }
  }

  lemma Shown(f: Function, indent: nat)
    ensures ShowFunction(f, 0, indent) != []
  {
  }

  // ----- the main results -----

  /** What is printed of a module gives back the module. */
  lemma ModuleDecodes(m: Module)
    requires PlainModule(m)
    ensures DecodeModule(ShowModule(m, 0, 0), 0) == Got(m, [])
  {
    FunctionsDecode(m.functions, m.entry, 0);
  }

  /** No two modules print alike. */
  lemma PrintingInjective(m: Module, m': Module)
    requires PlainModule(m) && PlainModule(m') && ShowModule(m, 0, 0) == ShowModule(m', 0, 0)
    ensures m == m'
  {
    ModuleDecodes(m);
    ModuleDecodes(m');
  }

  /** A function without a name, which the lexer does not deliver, would print as the entry
      point does. */
  lemma NamelessLooksLikeEntry(f: Function)
    requires f.name == ""
    ensures ShowModule(Module([f], None), 0, 0) == ShowModule(Module([], Some(f)), 0, 0)
  {
    assert ShowFunctions([f], 0, 0) == ShowFunction(f, 0, 0) + [];
  }
}
