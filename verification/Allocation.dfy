/** Definite allocation: case bodies open no scope, so a declaration in one stays visible
    after the branch even when the case was not taken.  When no name declared in a case is
    used outside that case, no run ever uses a variable that was not allocated; when one is
    used, a run can. */
module Allocation {
  import opened Ast
  import opened IR
  import opened Typing
  import opened Codegen
  import opened Source
  import opened Preservation

  // ----- the condition on the text -----

  /** The expression uses no hidden name. */
  predicate Without(e: Expr, hidden: set<string>)
    decreases e
  {
    match e
    case Identifier(x) => x !in hidden
    case Binary(_, l, r, _) => Without(l, hidden) && Without(r, hidden)
    case Call(_, args) => NoneWith(args, hidden)
    case _ => true
  }

  predicate NoneWith(args: seq<Expr>, hidden: set<string>)
    decreases args
  {
    args == [] || (Without(args[0], hidden) && NoneWith(args[1..], hidden))
  }

  /** The names hidden after a statement: those declared in its cases, but no longer one
      that it declares itself. */
  function HiddenAfter(s: Stmt, hidden: set<string>): set<string> {
    match s
    case Branch(_, cases, _) => hidden + DeclsOfCases(cases).Keys
    case Vardecl(x, _, _) => hidden - {x}
    case _ => hidden
  }

  /** The statement uses no hidden name; what a case declares is hidden in the cases after
      it, in the else body and after the branch. */
  predicate Keeps(s: Stmt, hidden: set<string>)
    decreases s
  {
    match s
    case Assert(e) => Without(e, hidden)
    case Input(x) => x !in hidden
    case Abort => true
    case Vardecl(x, _, init) => init.Some? ==> Without(init.value, hidden - {x})
    case Return(v) => v.Some? ==> Without(v.value, hidden)
    case Print(e) => Without(e, hidden)
    case Assign(x, e) => x !in hidden && Without(e, hidden)
    case ExprStmt(e) => Without(e, hidden)
    case Loop(body, cond) => KeepsIn(body, hidden) && Without(cond, hidden)
    case Branch(_, cases, els) =>
      KeepsInCases(cases, hidden) && (els.Else? ==> KeepsIn(els.body, hidden + DeclsOfCases(cases).Keys))
  }

  predicate KeepsIn(body: seq<Stmt>, hidden: set<string>)
    decreases body
  {
    body == [] || (Keeps(body[0], hidden) && KeepsIn(body[1..], HiddenAfter(body[0], hidden)))
  }

  predicate KeepsInCases(cases: seq<Case>, hidden: set<string>)
    decreases cases
  {
    cases == [] ||
    (Without(cases[0].cond, hidden) && KeepsIn(cases[0].body, hidden) &&
     KeepsInCases(cases[1..], hidden + DeclsIn(cases[0].body).Keys))
  }

  /** No name declared in a case body is used outside that body. */
  predicate Confined(f: Function) { KeepsIn(f.body, {}) }

  /** No case body declares anything in the scope of its branch. */
  predicate NoCaseDeclares(s: Stmt)
    decreases s
  {
    match s
    case Loop(body, _) => NoneDeclares(body)
    case Branch(_, cases, els) => NoBodyDeclares(cases) && (els.Else? ==> NoneDeclares(els.body))
    case _ => true
  }

  predicate NoneDeclares(body: seq<Stmt>)
    decreases body
  {
    body == [] || (NoCaseDeclares(body[0]) && NoneDeclares(body[1..]))
  }

  predicate NoBodyDeclares(cases: seq<Case>)
    decreases cases
  {
    cases == [] || (DeclsIn(cases[0].body) == map[] && NoneDeclares(cases[0].body) && NoBodyDeclares(cases[1..]))
  }

  /** Then the condition holds, whatever is declared in loops, else bodies and elsewhere. */
  lemma PlainFunctionsConfined(f: Function)
    requires NoneDeclares(f.body)
    ensures Confined(f)
  {
    PlainBodyKeeps(f.body);
  }

  lemma {:induction false} PlainKeeps(s: Stmt)
    requires NoCaseDeclares(s)
    ensures Keeps(s, {}) && HiddenAfter(s, {}) == {}
    decreases s
  {
    hide Without;
    var none: set<string> := {};
    forall e: Expr ensures Without(e, {}) { NothingHidden(e); }
    match s
    case Vardecl(x, _, _) => assert none - {x} == none;
    case Loop(body, _) => PlainBodyKeeps(body);
    case Branch(_, cases, els) =>
      PlainCasesKeep(cases);
      assert none + DeclsOfCases(cases).Keys == none;
      if els.Else? {
        PlainBodyKeeps(els.body);
      }
    case _ =>
  }

  lemma {:induction false} PlainBodyKeeps(body: seq<Stmt>)
    requires NoneDeclares(body)
    ensures KeepsIn(body, {})
    decreases body
  {
    if body != [] {
      PlainKeeps(body[0]);
      PlainBodyKeeps(body[1..]);
    }
  }

  lemma {:induction false} PlainCasesKeep(cases: seq<Case>)
    requires NoBodyDeclares(cases)
    ensures KeepsInCases(cases, {}) && DeclsOfCases(cases) == map[]
    decreases cases
  {
    hide Without;
    if cases != [] {
      NothingHidden(cases[0].cond);
      PlainBodyKeeps(cases[0].body);
      PlainCasesKeep(cases[1..]);
      var none: set<string> := {};
      assert none + DeclsIn(cases[0].body).Keys == none;
    }
  }

  lemma {:induction false} NothingHidden(e: Expr)
    ensures Without(e, {})
    decreases e
  {
    match e
    case Binary(_, l, r, _) =>
      NothingHidden(l);
      NothingHidden(r);
    case Call(_, args) => NothingHiddenIn(args);
    case _ =>
  }

  lemma {:induction false} NothingHiddenIn(args: seq<Expr>)
    ensures NoneWith(args, {})
    decreases args
  {
    if args != [] {
      NothingHidden(args[0]);
      NothingHiddenIn(args[1..]);
    }
  }

  // ----- what runs keep -----

  /** The variable a name stands for has been allocated, unless the name is hidden. */
  ghost predicate Full(fr: Frame, hidden: set<string>) {
    forall x | x !in hidden && Level(fr, x).Some? :: !fr[Level(fr, x).value][x].val.Missing?
  }

  predicate Lost(fr: Frame, i: nat, x: string) { i < |fr| && x in fr[i] && fr[i][x].val.Missing? }

  /** From `fr` to `fr'` only variables with one of the names went missing, all of them in
      the innermost scope. */
  ghost predicate Strays(fr: Frame, fr': Frame, names: set<string>) {
    && |fr'| == |fr| && fr != []
    && (forall i | 0 <= i < |fr| - 1 :: fr'[i].Keys == fr[i].Keys)
    && fr[|fr| - 1].Keys <= fr'[|fr| - 1].Keys
    && forall i: nat, x | Lost(fr', i, x) :: Lost(fr, i, x) || (i == |fr| - 1 && x in names)
  }

  lemma StraysTrans(fr: Frame, fr1: Frame, fr2: Frame, a: set<string>, b: set<string>)
    requires Strays(fr, fr1, a) && Strays(fr1, fr2, b)
    ensures Strays(fr, fr2, a + b)
  {
  }

  lemma FullKept(fr: Frame, fr': Frame, hidden: set<string>, names: set<string>)
    requires Full(fr, hidden) && Strays(fr, fr', names)
    ensures Full(fr', hidden + names)
  {
    forall x | x !in hidden + names && Level(fr', x).Some?
      ensures !fr'[Level(fr', x).value][x].val.Missing?
    {
      var i := Level(fr', x).value;
      assert Lost(fr', i, x) ==> Lost(fr, i, x);
    }
  }

  /** Opening a scope changes no name's meaning; neither does what happens inside it. */
  lemma FullInside(fr: Frame, hidden: set<string>)
    requires Full(fr, hidden)
    ensures Full(fr + [map[]], hidden)
  {
    forall x | x !in hidden && Level(fr + [map[]], x).Some?
      ensures !(fr + [map[]])[Level(fr + [map[]], x).value][x].val.Missing?
    {
      assert (fr + [map[]])[..|fr|] == fr;
    }
  }

  lemma StraysOutside(fr: Frame, fr': Frame, names: set<string>)
    requires fr != [] && Strays(fr + [map[]], fr', names)
    ensures Strays(fr, Pop(fr'), {})
  {
    forall i | 0 <= i < |fr|
      ensures Pop(fr')[i].Keys == fr[i].Keys
    {
      assert (fr + [map[]])[i] == fr[i];
    }
    forall i: nat, x | Lost(Pop(fr'), i, x)
      ensures Lost(fr, i, x)
    {
      assert Lost(fr', i, x);
      assert (fr + [map[]])[i] == fr[i];
    }
  }

  lemma MarkStrays(fr: Frame, ds: map<string, Ty>)
    requires fr != []
    ensures Strays(fr, MarkMissing(fr, ds), ds.Keys)
  {
  }

  lemma BindFull(fr: Frame, x: string, ty: Ty, c: Content, hidden: set<string>)
    requires fr != [] && Full(fr, hidden) && !c.Missing?
    ensures Full(Bind(fr, x, Binding(ty, c)), hidden - {x}) && Strays(fr, Bind(fr, x, Binding(ty, c)), {})
  {
    var fr': Frame := Bind(fr, x, Binding(ty, c));
    forall y | y !in hidden - {x} && Level(fr', y).Some?
      ensures !fr'[Level(fr', y).value][y].val.Missing?
    {
      assert fr'[..|fr| - 1] == fr[..|fr| - 1];
      assert y != x ==> Level(fr', y) == Level(fr, y);
    }
  }

  /** After a run from `fr` that went through the statements that declare `names`. */
  ghost predicate Allocates(fr: Frame, r: Exec, names: set<string>) {
    match r
    case Normal(fr', _) => Strays(fr, fr', names)
    case Stop(o, _) => o != Undeclared
    case _ => true
  }

  lemma {:induction false} ExprAllocates(cx: Ctx, fr: Frame, e: Expr, t: seq<Event>, hidden: set<string>)
    requires Full(fr, hidden) && Without(e, hidden)
    ensures EvalExpr(cx, fr, e, t).Halt? ==> EvalExpr(cx, fr, e, t).o != Undeclared
    decreases e
  {
    match e
    case Binary(_, l, r, _) =>
      ExprAllocates(cx, fr, l, t, hidden);
      ExprAllocates(cx, fr, r, EvalExpr(cx, fr, l, t).trace, hidden);
    case Call(f, args) =>
      if f in cx.sigs {
        ArgsAllocate(cx, fr, args, cx.sigs[f].params, t, hidden);
      }
    case _ =>
  }

  lemma {:induction false} ArgsAllocate(cx: Ctx, fr: Frame, args: seq<Expr>, params: seq<Ty>, t: seq<Event>, hidden: set<string>)
    requires Full(fr, hidden) && NoneWith(args, hidden)
    ensures EvalActuals(cx, fr, args, params, t).ArgsHalt? ==> EvalActuals(cx, fr, args, params, t).o != Undeclared
    decreases args
  {
    if args != [] && params != [] {
      ExprAllocates(cx, fr, args[0], t, hidden);
      var t' := ConvertTo(cx.env.fu, EvalExpr(cx, fr, args[0], t), params[0]).trace;
      ArgsAllocate(cx, fr, args[1..], params[1..], t', hidden);
    }
  }

  lemma VardeclAllocates(cx: Ctx, fr: Frame, x: string, ty: Ty, init: Option<Expr>, t: seq<Event>, hidden: set<string>)
    requires fr != [] && Full(fr, hidden) && (init.Some? ==> Without(init.value, hidden - {x}))
    ensures var r := ExecVardecl(cx, fr, x, ty, init, t);
            Allocates(fr, r, {}) && (r.Normal? ==> Full(r.fr, hidden - {x}))
  {
    hide EvalExpr, Full, Strays;
    var fr1 := Bind(fr, x, Binding(ty, Undef));
    BindFull(fr, x, ty, Undef, hidden);
    if init.Some? {
      ExprAllocates(cx, fr1, init.value, t, hidden - {x});
      var v := ConvertTo(cx.env.fu, EvalExpr(cx, fr1, init.value, t), ty);
      if v.Value? {
        BindFull(fr, x, ty, Def(v.n), hidden);
      }
    }
  }

  lemma SetStrays(fr: Frame, i: nat, x: string, n: int)
    requires i < |fr| && x in fr[i]
    ensures Strays(fr, SetVar(fr, i, x, Def(n)), {})
  {
  }

  lemma SimpleAllocates(cx: Ctx, fr: Frame, s: Stmt, t: seq<Event>, fuel: nat, hidden: set<string>)
    requires fr != [] && Full(fr, hidden) && Keeps(s, hidden) && !s.Branch? && !s.Loop? && !s.Vardecl?
    ensures Allocates(fr, ExecStmt(cx, fr, s, t, fuel), {})
  {
    hide EvalExpr, ConvertTo, Strays, SetVar;
    StraysNowhere(fr);
    forall i, x, n | 0 <= i < |fr| && x in fr[i]
      ensures Strays(fr, SetVar(fr, i, x, Def(n)), {})
    {
      SetStrays(fr, i, x, n);
    }
    match s
    case Assert(e) => ExprAllocates(cx, fr, e, t, hidden);
    case Return(Some(e)) =>
      ExprAllocates(cx, fr, e, t, hidden);
      ConvertAllocates(cx.env.fu, EvalExpr(cx, fr, e, t), cx.ret);
    case Print(e) => ExprAllocates(cx, fr, e, t, hidden);
    case Assign(x, e) =>
      ExprAllocates(cx, fr, e, t, hidden);
      if Level(fr, x).Some? {
        ConvertAllocates(cx.env.fu, EvalExpr(cx, fr, e, t), fr[Level(fr, x).value][x].ty);
      }
    case ExprStmt(e) => ExprAllocates(cx, fr, e, t, hidden);
    case _ =>
  }

  lemma ConvertAllocates(fu: FloatUnit, v: Eval, ty: Ty)
    requires v.Halt? ==> v.o != Undeclared
    ensures ConvertTo(fu, v, ty).Halt? ==> ConvertTo(fu, v, ty).o != Undeclared
  {
  }

  lemma StraysNowhere(fr: Frame)
    requires fr != []
    ensures Strays(fr, fr, {})
  {
  }

  lemma {:induction false} StmtAllocates(cx: Ctx, fr: Frame, s: Stmt, t: seq<Event>, fuel: nat, hidden: set<string>)
    requires fr != [] && Full(fr, hidden) && Keeps(s, hidden)
    ensures var r := ExecStmt(cx, fr, s, t, fuel);
            Allocates(fr, r, Decls(s).Keys) && (r.Normal? ==> Full(r.fr, HiddenAfter(s, hidden)))
    decreases fuel, s, 2
  {
    hide Full, Strays, EvalExpr, ExecLoop, ExecCases, ExecElse, ExecVardecl, ExecAssign;
    var r := ExecStmt(cx, fr, s, t, fuel);
    assert !s.Branch? && !s.Vardecl? ==> Decls(s).Keys == {};
    match s {
      case Loop(_, _) => LoopAllocates(cx, fr, s, t, fuel, hidden);
      case Branch(_, _, _) => BranchAllocates(cx, fr, s, t, fuel, hidden);
      case Vardecl(x, ty, init) =>
        VardeclAllocates(cx, fr, x, IRType(ty), init, t, hidden);
        if r.Normal? { MoreStray(fr, r.fr, {}, Decls(s).Keys); }
      case _ => SimpleAllocates(cx, fr, s, t, fuel, hidden);
    }
    if r.Normal? && !s.Vardecl? {
      FullKept(fr, r.fr, hidden, Decls(s).Keys);
      assert hidden + {} == hidden;
    }
  }

  lemma MoreStray(fr: Frame, fr': Frame, a: set<string>, b: set<string>)
    requires Strays(fr, fr', a) && a <= b
    ensures Strays(fr, fr', b)
  {
  }

  lemma {:induction false} BranchAllocates(cx: Ctx, fr: Frame, s: Stmt, t: seq<Event>, fuel: nat, hidden: set<string>)
    requires fr != [] && Full(fr, hidden) && s.Branch? && Keeps(s, hidden)
    ensures Allocates(fr, ExecStmt(cx, fr, s, t, fuel), DeclsOfCases(s.cases).Keys)
    decreases fuel, s, 1
  {
    hide Full, Strays, EvalExpr, ExecCases, ExecElse;
    var names := DeclsOfCases(s.cases).Keys;
    CasesAllocate(cx, fr, s.cases, t, fuel, hidden);
    var c := ExecCases(cx, fr, s.cases, t, fuel);
    if c.NoneTaken? {
      FullKept(fr, c.fr, hidden, names);
      StraysSome(fr, c.fr, names);
      ElseAllocates(cx, c.fr, s.els, c.trace, fuel, hidden + names);
      var r := ExecElse(cx, c.fr, s.els, c.trace, fuel);
      if r.Normal? {
        StraysTrans(fr, c.fr, r.fr, names, {});
        assert names + {} == names;
      }
    }
  }

  lemma StraysSome(fr: Frame, fr': Frame, names: set<string>)
    requires Strays(fr, fr', names)
    ensures fr' != []
  {
  }

  lemma {:induction false} ElseAllocates(cx: Ctx, fr: Frame, els: Else, t: seq<Event>, fuel: nat, hidden: set<string>)
    requires fr != [] && Full(fr, hidden) && (els.Else? ==> KeepsIn(els.body, hidden))
    ensures Allocates(fr, ExecElse(cx, fr, els, t, fuel), {})
    decreases fuel, els
  {
    hide Full, Strays, ExecStmts;
    match els
    case NoElse => StraysNowhere(fr);
    case Else(body) =>
      FullInside(fr, hidden);
      StmtsAllocate(cx, fr + [map[]], body, t, fuel, hidden);
      var r := ExecStmts(cx, fr + [map[]], body, t, fuel);
      if r.Normal? {
        StraysOutside(fr, r.fr, DeclsIn(body).Keys);
      }
  }

  lemma {:induction false} StmtsAllocate(cx: Ctx, fr: Frame, body: seq<Stmt>, t: seq<Event>, fuel: nat, hidden: set<string>)
    requires fr != [] && Full(fr, hidden) && KeepsIn(body, hidden)
    ensures Allocates(fr, ExecStmts(cx, fr, body, t, fuel), DeclsIn(body).Keys)
    decreases fuel, body, 0
  {
    hide Full, Strays, ExecStmt, HiddenAfter, Keeps;
    if body == [] {
      StraysNowhere(fr);
      assert DeclsIn(body).Keys == {};
    } else {
      StmtAllocates(cx, fr, body[0], t, fuel, hidden);
      var r := ExecStmt(cx, fr, body[0], t, fuel);
      if r.Normal? {
        StraysSome(fr, r.fr, Decls(body[0]).Keys);
        StmtsAllocate(cx, r.fr, body[1..], r.trace, fuel, HiddenAfter(body[0], hidden));
        var r2 := ExecStmts(cx, r.fr, body[1..], r.trace, fuel);
        if r2.Normal? {
          StraysTrans(fr, r.fr, r2.fr, Decls(body[0]).Keys, DeclsIn(body[1..]).Keys);
          assert Decls(body[0]).Keys + DeclsIn(body[1..]).Keys == DeclsIn(body).Keys;
        }
      }
    }
  }

  lemma {:induction false} LoopAllocates(cx: Ctx, fr: Frame, s: Stmt, t: seq<Event>, fuel: nat, hidden: set<string>)
    requires fr != [] && Full(fr, hidden) && s.Loop? && KeepsIn(s.body, hidden) && Without(s.cond, hidden)
    ensures Allocates(fr, ExecLoop(cx, fr, s, t, fuel), {})
    decreases fuel, s, 0
  {
    hide Full, Strays, EvalExpr, ExecStmts;
    if fuel != 0 {
      FullInside(fr, hidden);
      StmtsAllocate(cx, fr + [map[]], s.body, t, fuel, hidden);
      var r := ExecStmts(cx, fr + [map[]], s.body, t, fuel);
      if r.Normal? {
        StraysOutside(fr, r.fr, DeclsIn(s.body).Keys);
        FullKept(fr, Pop(r.fr), hidden, {});
        assert hidden + {} == hidden;
        ExprAllocates(cx, Pop(r.fr), s.cond, r.trace, hidden);
        var c := EvalCond(cx, Pop(r.fr), s.cond, r.trace);
        if c.Truth? && c.b {
          StraysSome(fr, Pop(r.fr), {});
          LoopAllocates(cx, Pop(r.fr), s, c.trace, fuel - 1, hidden);
          var r2 := ExecLoop(cx, Pop(r.fr), s, c.trace, fuel - 1);
          if r2.Normal? {
            var none: set<string> := {};
            StraysTrans(fr, Pop(r.fr), r2.fr, none, none);
            assert none + none == none;
          }
        }
      }
    }
  }

  ghost predicate ChoiceAllocates(fr: Frame, c: Choice, names: set<string>) {
    match c
    case Taken(r) => Allocates(fr, r, names)
    case NoneTaken(fr', _) => Strays(fr, fr', names)
  }

  lemma {:induction false} CasesAllocate(cx: Ctx, fr: Frame, cases: seq<Case>, t: seq<Event>, fuel: nat, hidden: set<string>)
    requires fr != [] && Full(fr, hidden) && KeepsInCases(cases, hidden)
    ensures ChoiceAllocates(fr, ExecCases(cx, fr, cases, t, fuel), DeclsOfCases(cases).Keys)
    decreases fuel, cases, 1
  {
    hide Full, Strays, EvalExpr, ExecStmts, MarkMissing;
    if cases == [] {
      StraysNowhere(fr);
      assert DeclsOfCases(cases).Keys == {};
    } else {
      ExprAllocates(cx, fr, cases[0].cond, t, hidden);
      var c := EvalCond(cx, fr, cases[0].cond, t);
      if c.Truth? {
        var here, later := DeclsIn(cases[0].body), DeclsOfCases(cases[1..]);
        assert here.Keys + later.Keys == DeclsOfCases(cases).Keys;
        if c.b {
          TakenAllocates(cx, fr, cases[0].body, later, c.trace, fuel, hidden);
        } else {
          NextAllocates(cx, fr, cases, c.trace, fuel, hidden);
        }
      }
    }
  }

  lemma {:induction false} TakenAllocates(cx: Ctx, fr: Frame, body: seq<Stmt>, later: map<string, Ty>, t: seq<Event>, fuel: nat,
                                          hidden: set<string>)
    requires fr != [] && Full(fr, hidden) && KeepsIn(body, hidden)
    ensures var r := ExecStmts(cx, fr, body, t, fuel);
            Allocates(fr, if r.Normal? then Normal(MarkMissing(r.fr, later), r.trace) else r, DeclsIn(body).Keys + later.Keys)
    decreases fuel, body, 1
  {
    hide Full, Strays, ExecStmts, MarkMissing;
    StmtsAllocate(cx, fr, body, t, fuel, hidden);
    var r := ExecStmts(cx, fr, body, t, fuel);
    if r.Normal? {
      StraysSome(fr, r.fr, DeclsIn(body).Keys);
      MarkStrays(r.fr, later);
      StraysTrans(fr, r.fr, MarkMissing(r.fr, later), DeclsIn(body).Keys, later.Keys);
    }
  }

  lemma {:induction false} NextAllocates(cx: Ctx, fr: Frame, cases: seq<Case>, t: seq<Event>, fuel: nat, hidden: set<string>)
    requires fr != [] && Full(fr, hidden) && cases != [] && KeepsInCases(cases, hidden)
    ensures var here, later := DeclsIn(cases[0].body), DeclsOfCases(cases[1..]);
            ChoiceAllocates(fr, ExecCases(cx, MarkMissing(fr, here), cases[1..], t, fuel), here.Keys + later.Keys)
    decreases fuel, cases, 0
  {
    hide Full, Strays, ExecCases, MarkMissing;
    var here, later := DeclsIn(cases[0].body), DeclsOfCases(cases[1..]);
    var fr1 := MarkMissing(fr, here);
    MarkStrays(fr, here);
    StraysSome(fr, fr1, here.Keys);
    FullKept(fr, fr1, hidden, here.Keys);
    CasesAllocate(cx, fr1, cases[1..], t, fuel, hidden + here.Keys);
    var c := ExecCases(cx, fr1, cases[1..], t, fuel);
    if c.NoneTaken? {
      StraysTrans(fr, fr1, c.fr, here.Keys, later.Keys);
    } else if c.r.Normal? {
      StraysTrans(fr, fr1, c.r.fr, here.Keys, later.Keys);
    }
  }

  lemma {:induction false} ParamsAllocated(fr: Frame, params: seq<Param>, args: seq<int>)
    requires fr != [] && Full(fr, {}) && |params| == |args|
    ensures BindParams(fr, params, args) != [] && Full(BindParams(fr, params, args), {})
    decreases params
  {
    hide Full;
    if params != [] {
      BindFull(fr, params[0].name, IRType(params[0].ty), Def(args[0]), {});
      assert {} - {params[0].name} == {};
      ParamsAllocated(Bind(fr, params[0].name, Binding(IRType(params[0].ty), Def(args[0]))), params[1..], args[1..]);
    }
  }

  /** When what cases declare stays inside the cases, semantic preservation needs no proviso. */
  lemma DefiniteAllocation(sigs: Sigs, env: Env, f: Function, args: seq<int>, t: seq<Event>)
    requires |args| == |f.params| && Confined(f)
    ensures Allocated(sigs, env, f, args, t)
  {
    forall t', fuel: nat
      ensures RunFunction(sigs, env, f, args, t, fuel) != Finished(Undeclared, t')
    {
      hide ExecStmts, BindParams, Full, Strays;
      NothingMissing();
      ParamsAllocated([map[]], f.params, args);
      StmtsAllocate(FunctionCtx(sigs, env, f), BindParams([map[]], f.params, args), f.body, t, fuel, {});
    }
  }

  lemma NothingMissing()
    ensures Full([map[]], {})
  {
  }

  /** In no run does the code load from or store to a slot that was not allocated. */
  lemma CodeAllocatesFirst(sigs: Sigs, env: Env, f: Function, gf: Gen, args: seq<int>, t: seq<Event>, t': seq<Event>)
    requires GenFunction(sigs, f) == Ok(gf) && Fits(f, args) && Confined(f)
    ensures !CodeEnds(gf.blocks, env, args, t, Undeclared, t')
  {
    hide Run, RunFunction, GenFunction, ExecInstr, SourceEnds, CodeEnds, Confined;
    DefiniteAllocation(sigs, env, f, args, t);
    if CodeEnds(gf.blocks, env, args, t, Undeclared, t') {
      CodeThenSource(sigs, env, f, gf, args, t, Undeclared, t');
    }
  }

  // ----- why the condition is there -----

  const NECCHI := VarType(INTEGER, false)

  /** A case that is not taken declares a variable that is then assigned to. */
  const STRAY := Function("f", VarType(VOID, false), [Param("c", NECCHI)],
    [Branch("c", [StrayCaseOf()], NoElse), Assign("y", IntLit(2))])

  const STRAY_SCOPE: Scopes<nat> := [map["c" := Binding(I32, 0)]]
  const STRAY_START := [Alloca(0, I32), Store(Arg(I32, 0), 0)]
  const STRAY_TEST := [Load(0, I32, 0), Cmp(1, IEQ, Reg(I32, 0), Const(I32, 1))]

  lemma StrayPrologue()
    ensures GenPrologue(STRAY) == Ok(Gen([STRAY_START, []], [0], 0, 0, 1, STRAY_SCOPE, 1, Option.None))
  {
    var g0 := NewBlock(EnterScope(BLANK));
    assert g0 == Gen([[]], [0], 0, 0, 0, [map[]], 0, Option.None);
    var g1 := Emit(NewSlot(g0, I32), Store(Arg(I32, 0), 0)).(scopes := Bind(g0.scopes, "c", Binding(I32, 0)));
    assert g1.scopes == STRAY_SCOPE;
    assert g1.blocks[0] == STRAY_START && g1.blocks == [STRAY_START];
    assert GenParams(g1, [], 1) == Ok(g1);
    assert STRAY.params[1..] == [];
    assert GenParams(g0, STRAY.params, 0) == Ok(g1);
    assert GenResult(g0, Void, false) == Ok(g0);
    assert STRAY.name != "" && IRType(STRAY.ret) == Void;
    assert CreateBlock(g1).blocks == [STRAY_START, []];
  }

  lemma StrayCondition(g: Gen)
    requires Ready(g) && g.scopes == STRAY_SCOPE && g.nextReg == 0
    ensures var r := GenCondition(map[], g, Binary(EQ, Identifier("c"), IntLit(1), true));
            r == Ok((g.(blocks := g.blocks[g.cur := g.blocks[g.cur] + STRAY_TEST], nextReg := 2), Reg(I1, 1)))
  {
    var e := Binary(EQ, Identifier("c"), IntLit(1), true);
    assert Level(g.scopes, "c") == Some(0);
    var g1 := Define(g, Load(0, I32, 0));
    assert GenExpr(map[], g, e.left) == Ok((g1, Val(Reg(I32, 0), false)));
    assert GenExpr(map[], g1, e.right) == Ok((g1, Val(Const(I32, 1), false)));
    assert CalcType(map[], g1.scopes, e) == Ok(I32);
    var g2 := Define(g1, Cmp(1, IEQ, Reg(I32, 0), Const(I32, 1)));
    assert GenOperation(g1, EQ, I32, Reg(I32, 0), Const(I32, 1)) == Ok((g2, Val(Reg(I1, 1), true)));
    assert g2.blocks[g.cur] == g.blocks[g.cur] + STRAY_TEST;
    assert g2.blocks == g.blocks[g.cur := g.blocks[g.cur] + STRAY_TEST];
  }

  /** The state where the case's condition is generated, and the one after the branch. */
  const STRAY_HEAD := Gen([STRAY_START + [Br(2)], [], [Br(4)], [], []], [0, 2, 4], 4, 0, 1, STRAY_SCOPE, 1, Option.None)
  const STRAY_AFTER := Gen(
    [STRAY_START + [Br(2)], [], [Br(4)], [], STRAY_TEST + [CondBr(Reg(I1, 1), 6, 5)], [Br(3)], [Alloca(1, I32), Br(3)]],
    [0, 2, 4, 6, 5, 3], 3, 2, 2, [map["c" := Binding(I32, 0), "y" := Binding(I32, 1)]], 1, Option.None)

  const STRAY_NEXT := STRAY_AFTER.(blocks := STRAY_AFTER.blocks[5 := []], layout := [0, 2, 4, 6, 5], cur := 5)

  function StrayCaseOf(): Case {
    Case(Binary(EQ, Identifier("c"), IntLit(1), true), [Vardecl("y", NECCHI, Option.None)])
  }

  lemma PlainVardecl(sigs: Sigs, g: Gen, x: string, t: VarType)
    requires Ready(g) && g.scopes != [] && x !in g.scopes[|g.scopes| - 1] && !IRType(t).Void?
    ensures GenStmt(sigs, g, Vardecl(x, t, Option.None))
         == Ok(NewSlot(g, IRType(t)).(scopes := Bind(g.scopes, x, Binding(IRType(t), g.nextSlot))))
  {
    hide IRType, NewSlot;
  }

  lemma LastStmt(sigs: Sigs, g: Gen, s: Stmt)
    requires Ready(g) && GenStmt(sigs, g, s).Ok?
    ensures GenStmts(sigs, g, [s]) == GenStmt(sigs, g, s)
  {
    hide GenStmt;
    var g1 := GenStmt(sigs, g, s).value;
    assert [s][0] == s && [s][1..] == [];
    assert GenStmts(sigs, g1, []) == Ok(g1);
  }

  lemma StrayBody(g: Gen)
    requires Ready(g) && g.scopes == STRAY_SCOPE && g.nextSlot == 1
    ensures GenStmts(map[], g, StrayCaseOf().body) == Ok(NewSlot(g, I32).(scopes := STRAY_AFTER.scopes))
  {
    hide GenStmt, GenStmts, NewSlot;
    assert Bind(g.scopes, "y", Binding(I32, 1)) == STRAY_AFTER.scopes;
    PlainVardecl(map[], g, "y", NECCHI);
    LastStmt(map[], g, Vardecl("y", NECCHI, Option.None));
  }

  lemma StrayCase()
    ensures GenCase(map[], STRAY_HEAD, StrayCaseOf(), 3) == Ok(STRAY_NEXT)
  {
    hide GenCondition, GenStmts;
    StrayCondition(STRAY_HEAD);
    var (g1, v) := GenCondition(map[], STRAY_HEAD, StrayCaseOf().cond).value;
    assert [] + STRAY_TEST == STRAY_TEST;
    assert g1.blocks == STRAY_HEAD.blocks[4 := STRAY_TEST];
    var g2 := Emit(NewBlock(CreateBlock(g1)), CondBr(v, 6, 5)).(cur := 6);
    assert g2.blocks[4] == STRAY_TEST + [CondBr(Reg(I1, 1), 6, 5)] && g2.blocks[6] == [];
    StrayBody(g2);
    var g3 := GenStmts(map[], g2, StrayCaseOf().body).value;
    var g4 := InsertBlock(Emit(g3, Br(3)), 5).(cur := 5);
    assert g3.blocks[6] == [Alloca(1, I32)] && g4.blocks[6] == [Alloca(1, I32), Br(3)];
    assert g4.blocks == STRAY_NEXT.blocks;
    assert g4.layout == STRAY_NEXT.layout;
    assert g4 == STRAY_NEXT;
  }

  lemma StrayOpens(g: Gen)
    requires g == Gen([STRAY_START, []], [0], 0, 0, 1, STRAY_SCOPE, 1, Option.None)
    ensures BranchTo(NewBlock(BranchTo(CreateBlock(NewBlock(g)), 2)), 4) == STRAY_HEAD
  {
    var g1 := BranchTo(NewBlock(BranchTo(CreateBlock(NewBlock(g)), 2)), 4);
    assert g1.blocks[0] == STRAY_START + [Br(2)] && g1.blocks[2] == [Br(4)];
    assert g1.blocks == STRAY_HEAD.blocks && g1.layout == STRAY_HEAD.layout;
  }

  lemma StrayBranch(g: Gen)
    requires g == Gen([STRAY_START, []], [0], 0, 0, 1, STRAY_SCOPE, 1, Option.None)
    ensures GenStmt(map[], g, Branch("c", [StrayCaseOf()], NoElse)) == Ok(STRAY_AFTER)
  {
    hide GenCase;
    StrayOpens(g);
    StrayCase();
    var cases := [StrayCaseOf()];
    assert cases[1..] == [];
    assert GenCases(map[], STRAY_HEAD, cases, 3) == GenCases(map[], STRAY_NEXT, [], 3);
    assert GenElse(map[], STRAY_NEXT, NoElse) == Ok(STRAY_NEXT);
    var g4 := InsertBlock(Emit(STRAY_NEXT, Br(3)), 3).(cur := 3);
    assert g4.blocks[5] == [Br(3)] && g4.blocks == STRAY_AFTER.blocks && g4.layout == STRAY_AFTER.layout;
  }

  /** The generator accepts the function; the assignment stores to the second slot. */
  lemma StrayIsAccepted()
    ensures GenFunction(map[], STRAY).Ok?
    ensures var code := GenFunction(map[], STRAY).value.blocks;
            |code| == 7 && code[3] == [Store(Const(I32, 2), 1), Br(1)] &&
            forall b | b in {0, 2, 4, 5} :: code[b] == STRAY_AFTER.blocks[b]
  {
    hide GenPrologue, Source.ExecStmts, GenBranch;
    StrayPrologue();
    var g := GenPrologue(STRAY).value;
    StrayBranch(g);
    var assign := Assign("y", IntLit(2));
    assert Level(STRAY_AFTER.scopes, "y") == Some(0);
    var g1 := Emit(STRAY_AFTER, Store(Const(I32, 2), 1));
    assert GenStmt(map[], STRAY_AFTER, assign) == Ok(g1);
    LastStmt(map[], STRAY_AFTER, assign);
    assert STRAY.body[1..] == [assign];
    assert GenStmts(map[], g, STRAY.body) == Ok(g1);
    assert g1.blocks[3] == [Store(Const(I32, 2), 1)];
  }

  lemma StrayDeclares()
    ensures !Confined(STRAY)
  {
    var branch := Branch("c", [StrayCaseOf()], NoElse);
    assert "y" in DeclsIn(StrayCaseOf().body);
    assert "y" in HiddenAfter(branch, {});
    assert STRAY.body[0] == branch && STRAY.body[1..] == [Assign("y", IntLit(2))];
    assert !KeepsIn(STRAY.body[1..], HiddenAfter(branch, {}));
  }

  /** Run with an argument that does not take the case, its code stores to a slot that
      was never allocated. */
  lemma CaseDeclarationsCanStray(env: Env, t: seq<Event>)
    ensures GenFunction(map[], STRAY).Ok? && Fits(STRAY, [0]) && !Confined(STRAY)
    ensures CodeEnds(GenFunction(map[], STRAY).value.blocks, env, [0], t, Undeclared, t)
  {
    hide Run, GenFunction, ExecInstr, Confined;
    StrayDeclares();
    StrayIsAccepted();
    StrayRuns(GenFunction(map[], STRAY).value.blocks, env, t);
  }

  lemma StrayRuns(code: Blocks, env: Env, t: seq<Event>)
    requires |code| == 7 && code[3] == [Store(Const(I32, 2), 1), Br(1)]
    requires forall b | b in {0, 2, 4, 5} :: code[b] == STRAY_AFTER.blocks[b]
    ensures Run(code, env, [0], Live(Entry(t)), 9) == Done(Undeclared, t)
  {
    hide ExecInstr;
    StrayStarts(code, env, t);
    StrayTests(code, env, t);
    StrayStores(code, env, t);
    RunAdds(code, env, [0], Live(Entry(t)), 3, 4);
    RunAdds(code, env, [0], Live(Entry(t)), 7, 2);
  }

  function StrayAt(blk: nat, pc: nat, regs: map<nat, int>, t: seq<Event>): Config {
    Live(MState(blk, pc, regs, map[0 := Cell(I32, Some(0))], t))
  }

  lemma StrayStarts(code: Blocks, env: Env, t: seq<Event>)
    requires |code| == 7 && code[0] == STRAY_AFTER.blocks[0]
    ensures Run(code, env, [0], Live(Entry(t)), 3) == StrayAt(2, 0, map[], t)
  {
    assert code[0] == STRAY_START + [Br(2)];
    var c1 := Live(MState(0, 1, map[], map[0 := Cell(I32, Option.None)], t));
    assert Step(code, env, [0], Live(Entry(t))) == c1;
    assert Step(code, env, [0], c1) == StrayAt(0, 2, map[], t);
    assert Step(code, env, [0], StrayAt(0, 2, map[], t)) == StrayAt(2, 0, map[], t);
  }

  lemma StrayTests(code: Blocks, env: Env, t: seq<Event>)
    requires |code| == 7 && code[2] == STRAY_AFTER.blocks[2] && code[4] == STRAY_AFTER.blocks[4]
    ensures Run(code, env, [0], StrayAt(2, 0, map[], t), 4) == StrayAt(5, 0, map[0 := 0, 1 := 0], t)
  {
    assert code[4] == STRAY_TEST + [CondBr(Reg(I1, 1), 6, 5)] && code[2] == [Br(4)];
    assert Step(code, env, [0], StrayAt(2, 0, map[], t)) == StrayAt(4, 0, map[], t);
    assert Step(code, env, [0], StrayAt(4, 0, map[], t)) == StrayAt(4, 1, map[0 := 0], t);
    assert Step(code, env, [0], StrayAt(4, 1, map[0 := 0], t)) == StrayAt(4, 2, map[0 := 0, 1 := 0], t);
    assert Step(code, env, [0], StrayAt(4, 2, map[0 := 0, 1 := 0], t)) == StrayAt(5, 0, map[0 := 0, 1 := 0], t);
  }

  lemma StrayStores(code: Blocks, env: Env, t: seq<Event>)
    requires |code| == 7 && code[5] == STRAY_AFTER.blocks[5] && code[3] == [Store(Const(I32, 2), 1), Br(1)]
    ensures Run(code, env, [0], StrayAt(5, 0, map[0 := 0, 1 := 0], t), 2) == Done(Undeclared, t)
  {
    assert code[5] == [Br(3)];
    assert Step(code, env, [0], StrayAt(5, 0, map[0 := 0, 1 := 0], t)) == StrayAt(3, 0, map[0 := 0, 1 := 0], t);
    assert Step(code, env, [0], StrayAt(3, 0, map[0 := 0, 1 := 0], t)) == Done(Undeclared, t);
  }
}
