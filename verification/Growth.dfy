/** How generation grows its state: which blocks it may touch and what it does to the
    scopes.  Everything proved about the code rests on these facts. */
module Growth {
  import opened Ast
  import opened IR
  import opened Typing
  import opened Codegen
  import opened Source

  function Top<T>(sc: Scopes<T>): map<string, Binding<T>>
    requires sc != []
  {
    sc[|sc| - 1]
  }

  /** Old blocks keep their code; only the current one may get more. */
  predicate BlocksGrow(g: Gen, g': Gen) {
    && |g.blocks| <= |g'.blocks|
    && (forall b | 0 <= b < |g.blocks| :: g.blocks[b] <= g'.blocks[b])
    && (forall b | 0 <= b < |g.blocks| && b != g.cur :: g'.blocks[b] == g.blocks[b])
    && (g'.cur == g.cur || |g.blocks| <= g'.cur)
    && g.nextReg <= g'.nextReg
    && g'.exit == g.exit
    && g'.result == g.result
  }

  /** The innermost scope gained exactly the declarations `ds`, each with a slot of its
      own taken from `[lo, hi)`; every outer scope and every older entry is untouched. */
  predicate ScopesGrow(sc: Scopes<nat>, sc': Scopes<nat>, ds: map<string, Ty>, lo: nat, hi: nat)
    requires sc != []
  {
    && lo <= hi
    && |sc'| == |sc|
    && sc'[..|sc| - 1] == sc[..|sc| - 1]
    && Top(sc').Keys == Top(sc).Keys + ds.Keys
    && Top(sc).Keys !! ds.Keys
    && (forall x | x in Top(sc) :: Top(sc')[x] == Top(sc)[x])
    && (forall x | x in ds :: Top(sc')[x].ty == ds[x] && lo <= Top(sc')[x].val < hi)
    && (forall x, y | x in ds && y in ds && Top(sc')[x].val == Top(sc')[y].val :: x == y)
  }

  predicate Grows(g: Gen, g': Gen, ds: map<string, Ty>)
    requires g.scopes != []
  {
    && Ready(g')
    && g'.scopes != []
    && BlocksGrow(g, g')
    && ScopesGrow(g.scopes, g'.scopes, ds, g.nextSlot, g'.nextSlot)
  }

  lemma AppendsGrows(g: Gen, g': Gen)
    requires Ready(g) && g.scopes != [] && Appends(g, g')
    ensures Grows(g, g', map[])
  {
  }

  lemma EmitGrows(g: Gen, i: Instr)
    requires Ready(g) && g.scopes != []
    ensures Grows(g, Emit(g, i), map[])
  {
  }

  lemma BlocksGrowTrans(g: Gen, g1: Gen, g2: Gen)
    requires Ready(g) && Ready(g1) && BlocksGrow(g, g1) && BlocksGrow(g1, g2)
    ensures BlocksGrow(g, g2)
  {
  }

  lemma ScopesGrowTrans(a: Scopes<nat>, b: Scopes<nat>, c: Scopes<nat>, d1: map<string, Ty>, d2: map<string, Ty>,
                        lo: nat, mid: nat, hi: nat)
    requires a != [] && ScopesGrow(a, b, d1, lo, mid) && ScopesGrow(b, c, d2, mid, hi)
    ensures ScopesGrow(a, c, d1 + d2, lo, hi)
  {
    forall x | x in d1 + d2
      ensures Top(c)[x].ty == (d1 + d2)[x] && lo <= Top(c)[x].val < hi
    {
      assert x in d1 ==> x in Top(b);
    }
    forall x, y | x in d1 + d2 && y in d1 + d2 && Top(c)[x].val == Top(c)[y].val
      ensures x == y
    {
      assert x in d1 ==> x in Top(b);
      assert y in d1 ==> y in Top(b);
    }
  }

  lemma GrowsTrans(g: Gen, g1: Gen, g2: Gen, d1: map<string, Ty>, d2: map<string, Ty>)
    requires Ready(g) && g.scopes != [] && Grows(g, g1, d1) && Grows(g1, g2, d2)
    ensures Grows(g, g2, d1 + d2)
  {
    BlocksGrowTrans(g, g1, g2);
    ScopesGrowTrans(g.scopes, g1.scopes, g2.scopes, d1, d2, g.nextSlot, g1.nextSlot, g2.nextSlot);
  }

  /** Generating inside a scope of its own and leaving it puts the scopes back. */
  lemma ScopedGrows(g: Gen, g1: Gen, g2: Gen, ds: map<string, Ty>)
    requires Ready(g) && g.scopes != [] && BlocksGrow(g, g1) && Ready(g1)
    requires g1.scopes == g.scopes + [map[]] && g1.nextSlot == g.nextSlot && Grows(g1, g2, ds)
    ensures Grows(g, LeaveScope(g2), map[]) && LeaveScope(g2).scopes == g.scopes
  {
    BlocksGrowTrans(g, g1, g2);
    assert g1.scopes[..|g1.scopes| - 1] == g.scopes;
  }

  /** Ending the current block and going on in a block that is new since `g`. */
  lemma CloseGrows(g: Gen, g1: Gen, ds: map<string, Ty>, i: Instr, b: nat)
    requires Ready(g) && g.scopes != [] && Grows(g, g1, ds) && |g.blocks| <= b < |g1.blocks|
    ensures Grows(g, InsertBlock(Emit(g1, i), b).(cur := b), ds)
  {
    var g2 := InsertBlock(Emit(g1, i), b).(cur := b);
    forall k | 0 <= k < |g.blocks|
      ensures g.blocks[k] <= g2.blocks[k] && (k != g.cur ==> g2.blocks[k] == g.blocks[k])
    {
    }
  }

  lemma MoveGrows(g: Gen, g1: Gen, ds: map<string, Ty>, i: Instr, b: nat)
    requires Ready(g) && g.scopes != [] && Grows(g, g1, ds) && |g.blocks| <= b < |g1.blocks|
    ensures Grows(g, Emit(g1, i).(cur := b), ds)
    ensures forall j :: Grows(g, Emit(Emit(g1, i).(cur := b), j), ds)
  {
    hide ScopesGrow;
    forall j
      ensures Grows(g, Emit(Emit(g1, i).(cur := b), j), ds)
    {
    }
  }

  /** Converting a value and storing it. */
  lemma StoreGrows(g: Gen, g1: Gen, v: Operand, ty: Ty, fail: CgError, slot: nat)
    requires Ready(g) && g.scopes != [] && Appends(g, g1) && EnsureType(g1, v, ty, fail).Ok?
    ensures var (g2, o) := EnsureType(g1, v, ty, fail).value; Grows(g, Emit(g2, Store(o, slot)), map[])
  {
    var (g2, o) := EnsureType(g1, v, ty, fail).value;
    assert Appends(g, g2);
    EmitGrows(g2, Store(o, slot));
    GrowsTrans(g, g2, Emit(g2, Store(o, slot)), map[], map[]);
  }

  lemma VardeclGrows(sigs: Sigs, g: Gen, x: string, ty: Ty, init: Option<Expr>)
    requires Ready(g) && g.scopes != [] && GenVardecl(sigs, g, x, ty, init).Ok?
    ensures Grows(g, GenVardecl(sigs, g, x, ty, init).value, map[x := ty])
  {
    hide GenExpr, EnsureType, BlocksGrow, ScopesGrow, Appends, NewSlot;
    DeclarationGrows(g, x, ty);
    var g2 := NewSlot(g, ty).(scopes := Bind(g.scopes, x, Binding(ty, g.nextSlot)));
    if init.Some? {
      var (g3, v) := GenExpr(sigs, g2, init.value).value;
      StoreGrows(g2, g3, v.op, ty, CannotInitialize, g.nextSlot);
      GrowsTrans(g, g2, GenVardecl(sigs, g, x, ty, init).value, map[x := ty], map[]);
      NothingMore(map[x := ty]);
    }
  }

  lemma DeclarationGrows(g: Gen, x: string, ty: Ty)
    requires Ready(g) && g.scopes != [] && x !in g.scopes[|g.scopes| - 1]
    ensures Grows(g, NewSlot(g, ty).(scopes := Bind(g.scopes, x, Binding(ty, g.nextSlot))), map[x := ty])
  {
  }

  lemma ReturnGrows(sigs: Sigs, g: Gen, value: Option<Expr>)
    requires Ready(g) && g.scopes != [] && GenReturn(sigs, g, value).Ok?
    ensures Grows(g, GenReturn(sigs, g, value).value, map[])
  {
    var g' := GenReturn(sigs, g, value).value;
    if value.Some? {
      var (g1, v) := GenExpr(sigs, g, value.value).value;
      var b := g.result.value;
      StoreGrows(g, g1, v.op, b.ty, CannotReturn, b.val);
      var (g2, o) := EnsureType(g1, v.op, b.ty, CannotReturn).value;
      var g3 := Emit(g2, Store(o, b.val));
      assert Grows(g3, g', map[]);
      GrowsTrans(g, g3, g', map[], map[]);
    }
  }

  lemma InputGrows(g: Gen, x: string)
    requires Ready(g) && g.scopes != [] && GenInput(g, x).Ok?
    ensures Grows(g, GenInput(g, x).value, map[])
  {
    hide Truthiness, BlocksGrow, ScopesGrow, Appends, NewSlot, Define, Emit;
    var b := g.scopes[Level(g.scopes, x).value][x];
    if b.ty != I1 {
      EmitGrows(g, CallScan(b.ty, b.val));
    } else {
      ReadGrows(g);
      var g1 := Emit(NewSlot(g, I32), CallScan(I1, g.nextSlot));
      var g2 := Define(g1, Load(g1.nextReg, I1, g.nextSlot));
      var (g3, o) := Truthiness(g2, Val(Reg(I1, g1.nextReg), false)).value;
      AppendsGrows(g2, g3);
      EmitGrows(g3, Store(o, b.val));
      GrowsOn(g, g2, g3);
      GrowsOn(g, g3, Emit(g3, Store(o, b.val)));
    }
  }

  /** A temporary, the input and the load. */
  lemma ReadGrows(g: Gen)
    requires Ready(g) && g.scopes != []
    ensures Ready(NewSlot(g, I32)) && Ready(Emit(NewSlot(g, I32), CallScan(I1, g.nextSlot)))
    ensures var g1 := Emit(NewSlot(g, I32), CallScan(I1, g.nextSlot));
            Grows(g, Define(g1, Load(g1.nextReg, I1, g.nextSlot)), map[])
  {
  }

  lemma AssertGrows(sigs: Sigs, g: Gen, e: Expr)
    requires Ready(g) && g.scopes != [] && GenAssert(sigs, g, e).Ok?
    ensures Grows(g, GenAssert(sigs, g, e).value, map[])
  {
    hide GenCondition, BlocksGrow, ScopesGrow, Appends;
    var n, g1 := |g.blocks|, BranchTo(NewBlock(NewBlock(NewBlock(g))), |g.blocks|);
    AssertHeadGrows(g);
    var (g2, c) := GenCondition(sigs, g1, e).value;
    AppendsGrows(g1, g2);
    GrowsOn(g, g1, g2);
    BlocksKept(g1, g2);
    MoveGrows(g, g2, map[], CondBr(c, n + 2, n + 1), n + 1);
    MoveGrows(g, Emit(Emit(g2, CondBr(c, n + 2, n + 1)).(cur := n + 1), CallAbort), map[], Br(n + 2), n + 2);
  }

  lemma AssertHeadGrows(g: Gen)
    requires Ready(g) && g.scopes != []
    ensures Grows(g, BranchTo(NewBlock(NewBlock(NewBlock(g))), |g.blocks|), map[])
  {
  }

  lemma PrintGrows(sigs: Sigs, g: Gen, e: Expr)
    requires Ready(g) && g.scopes != [] && GenPrint(sigs, g, e).Ok?
    ensures Grows(g, GenPrint(sigs, g, e).value, map[])
  {
  }

  lemma AssignGrows(sigs: Sigs, g: Gen, x: string, e: Expr)
    requires Ready(g) && g.scopes != [] && GenAssign(sigs, g, x, e).Ok?
    ensures Grows(g, GenAssign(sigs, g, x, e).value, map[])
  {
    var (g1, v) := GenExpr(sigs, g, e).value;
    var b := g1.scopes[Level(g1.scopes, x).value][x];
    StoreGrows(g, g1, v.op, b.ty, CannotAssign, b.val);
  }

  lemma {:induction false} StmtGrows(sigs: Sigs, g: Gen, s: Stmt)
    requires Ready(g) && g.scopes != [] && GenStmt(sigs, g, s).Ok?
    ensures Grows(g, GenStmt(sigs, g, s).value, Decls(s))
    decreases s, 2
  {
    match s
    case Assert(e) => AssertGrows(sigs, g, e);
    case Input(x) => InputGrows(g, x);
    case Abort => EmitGrows(g, CallAbort);
    case Vardecl(x, t, init) => VardeclGrows(sigs, g, x, IRType(t), init);
    case Return(v) => ReturnGrows(sigs, g, v);
    case Print(e) => PrintGrows(sigs, g, e);
    case Assign(x, e) => AssignGrows(sigs, g, x, e);
    case ExprStmt(e) => AppendsGrows(g, GenExpr(sigs, g, e).value.0);
    case Loop(_, _) => LoopGrows(sigs, g, s);
    case Branch(_, _, _) => BranchGrows(sigs, g, s);
  }

  lemma {:induction false} StmtsGrow(sigs: Sigs, g: Gen, body: seq<Stmt>)
    requires Ready(g) && g.scopes != [] && GenStmts(sigs, g, body).Ok?
    ensures Grows(g, GenStmts(sigs, g, body).value, DeclsIn(body))
    decreases body
  {
    if body != [] {
      var g1 := GenStmt(sigs, g, body[0]).value;
      StmtGrows(sigs, g, body[0]);
      StmtsGrow(sigs, g1, body[1..]);
      GrowsTrans(g, g1, GenStmts(sigs, g, body).value, Decls(body[0]), DeclsIn(body[1..]));
    }
  }

  lemma {:induction false} LoopGrows(sigs: Sigs, g: Gen, s: Stmt)
    requires Ready(g) && g.scopes != [] && s.Loop? && GenLoop(sigs, g, s).Ok?
    ensures Grows(g, GenLoop(sigs, g, s).value, map[])
    ensures GenLoop(sigs, g, s).value.scopes == g.scopes
    decreases s, 0
  {
    hide GenStmts, GenCondition, BlocksGrow, ScopesGrow, Appends;
    var g1 := EnterScope(BranchTo(NewBlock(g), |g.blocks|));
    LoopHeadGrows(g);
    StmtsGrow(sigs, g1, s.body);
    var g2 := GenStmts(sigs, g1, s.body).value;
    ScopedGrows(g, g1, g2, DeclsIn(s.body));
    var g3 := BranchTo(CreateBlock(NewBlock(LeaveScope(g2))), |g2.blocks|);
    LoopTestGrows(LeaveScope(g2));
    GrowsOn(g, LeaveScope(g2), g3);
    var (g4, c) := GenCondition(sigs, g3, s.cond).value;
    AppendsGrows(g3, g4);
    GrowsOn(g, g3, g4);
    BlocksKept(g, LeaveScope(g2));
    BlocksKept(g3, g4);
    CloseGrows(g, g4, map[], CondBr(c, |g.blocks|, |g2.blocks| + 1), |g2.blocks| + 1);
    SameScopes(g3, g4);
  }

  lemma LoopHeadGrows(g: Gen)
    requires Ready(g)
    ensures BlocksGrow(g, EnterScope(BranchTo(NewBlock(g), |g.blocks|)))
  {
  }

  lemma LoopTestGrows(g: Gen)
    requires Ready(g) && g.scopes != []
    ensures Grows(g, BranchTo(CreateBlock(NewBlock(g)), |g.blocks|), map[])
  {
  }

  lemma GrowsOn(g: Gen, g1: Gen, g2: Gen)
    requires Ready(g) && g.scopes != [] && Grows(g, g1, map[]) && Grows(g1, g2, map[])
    ensures Grows(g, g2, map[])
  {
    hide BlocksGrow, ScopesGrow;
    GrowsTrans(g, g1, g2, map[], map[]);
    NothingMore(map[]);
  }

  lemma NothingMore(ds: map<string, Ty>)
    ensures ds + map[] == ds && map[] + ds == ds
  {
  }

  lemma BlocksKept(g: Gen, g': Gen)
    requires BlocksGrow(g, g')
    ensures |g.blocks| <= |g'.blocks|
  {
  }

  lemma SameScopes(g: Gen, g': Gen)
    requires Ready(g) && Appends(g, g')
    ensures g'.scopes == g.scopes
  {
  }

  /** Where the first condition of a branch is generated. */
  function BranchHead(g: Gen): (r: Gen)
    requires Ready(g)
    ensures Ready(r)
  {
    BranchTo(NewBlock(BranchTo(CreateBlock(NewBlock(g)), |g.blocks|)), |g.blocks| + 2)
  }

  lemma BranchOpens(g: Gen)
    requires Ready(g) && g.scopes != []
    ensures Grows(g, BranchHead(g), map[]) && BranchHead(g).scopes == g.scopes
    ensures BranchHead(g).blocks[|g.blocks| + 1] == []
  {
    var g0 := NewBlock(BranchTo(CreateBlock(NewBlock(g)), |g.blocks|));
    assert Grows(g, g0, map[]);
    CloseGrows(g, g0, map[], Br(|g.blocks| + 2), |g.blocks| + 2);
  }

  lemma {:induction false} BranchGrows(sigs: Sigs, g: Gen, s: Stmt)
    requires Ready(g) && g.scopes != [] && s.Branch? && GenBranch(sigs, g, s).Ok?
    ensures Grows(g, GenBranch(sigs, g, s).value, DeclsOfCases(s.cases))
    decreases s, 1
  {
    hide ScopesGrow, GenCases, GenElse;
    var ds := DeclsOfCases(s.cases);
    BranchCasesGrow(sigs, g, s.cases);
    var g2 := GenCases(sigs, BranchHead(g), s.cases, |g.blocks| + 1).value;
    ElseGrows(sigs, g2, s.els);
    NothingMore(ds);
    GrowsTrans(g, g2, GenElse(sigs, g2, s.els).value, ds, map[]);
    CloseGrows(g, GenElse(sigs, g2, s.els).value, ds, Br(|g.blocks| + 1), |g.blocks| + 1);
  }

  lemma {:induction false} BranchCasesGrow(sigs: Sigs, g: Gen, cases: seq<Case>)
    requires Ready(g) && g.scopes != [] && GenCases(sigs, BranchHead(g), cases, |g.blocks| + 1).Ok?
    ensures Grows(g, GenCases(sigs, BranchHead(g), cases, |g.blocks| + 1).value, DeclsOfCases(cases))
    decreases cases, 1
  {
    hide Grows, GenCases;
    var ds := DeclsOfCases(cases);
    BranchOpens(g);
    CasesGrow(sigs, BranchHead(g), cases, |g.blocks| + 1);
    GrowsTrans(g, BranchHead(g), GenCases(sigs, BranchHead(g), cases, |g.blocks| + 1).value, map[], ds);
    NothingMore(ds);
  }

  lemma {:induction false} ElseGrows(sigs: Sigs, g: Gen, els: Else)
    requires Ready(g) && g.scopes != [] && GenElse(sigs, g, els).Ok?
    ensures Grows(g, GenElse(sigs, g, els).value, map[])
    ensures GenElse(sigs, g, els).value.scopes == g.scopes
    decreases els
  {
    if els.Else? {
      var g1 := BranchTo(NewBlock(EnterScope(g)), |g.blocks|);
      StmtsGrow(sigs, g1, els.body);
      ScopedGrows(g, g1, GenStmts(sigs, g1, els.body).value, DeclsIn(els.body));
    }
  }

  lemma {:induction false} CaseGrows(sigs: Sigs, g: Gen, c: Case, exit: nat)
    requires Ready(g) && g.scopes != [] && GenCase(sigs, g, c, exit).Ok?
    ensures Grows(g, GenCase(sigs, g, c, exit).value, DeclsIn(c.body))
    decreases c
  {
    hide GenStmts, GenCondition;
    var ds := DeclsIn(c.body);
    var (g1, v) := GenCondition(sigs, g, c.cond).value;
    var g2 := Emit(NewBlock(CreateBlock(g1)), CondBr(v, |g1.blocks| + 1, |g1.blocks|)).(cur := |g1.blocks| + 1);
    AppendsGrows(g, g1);
    assert Grows(g1, g2, map[]);
    GrowsTrans(g, g1, g2, map[], map[]);
    StmtsGrow(sigs, g2, c.body);
    var g3 := GenStmts(sigs, g2, c.body).value;
    GrowsTrans(g, g2, g3, map[], ds);
    NothingMore(ds);
    CloseGrows(g, g3, ds, Br(exit), |g1.blocks|);
  }

  lemma {:induction false} CasesGrow(sigs: Sigs, g: Gen, cases: seq<Case>, exit: nat)
    requires Ready(g) && g.scopes != [] && GenCases(sigs, g, cases, exit).Ok?
    ensures Grows(g, GenCases(sigs, g, cases, exit).value, DeclsOfCases(cases))
    decreases cases, 0
  {
    if cases != [] {
      var g1 := GenCase(sigs, g, cases[0], exit).value;
      CaseGrows(sigs, g, cases[0], exit);
      CasesGrow(sigs, g1, cases[1..], exit);
      GrowsTrans(g, g1, GenCases(sigs, g, cases, exit).value, DeclsIn(cases[0].body), DeclsOfCases(cases[1..]));
    }
  }

  // ----- functions -----

  lemma {:induction false} ParamsBalanced(g: Gen, params: seq<Param>, index: nat)
    requires Ready(g) && GenParams(g, params, index).Ok?
    ensures |GenParams(g, params, index).value.scopes| == |g.scopes|
    decreases params
  {
    if params != [] {
      var x, ty := params[0].name, IRType(params[0].ty);
      var g1 := Emit(NewSlot(g, ty), Store(Arg(ty, index), g.nextSlot));
      ParamsBalanced(g1.(scopes := Bind(g.scopes, x, Binding(ty, g.nextSlot))), params[1..], index + 1);
    }
  }

  lemma PrologueBalanced(f: Function, g: Gen)
    requires GenPrologue(f) == Ok(g)
    ensures Ready(g) && |g.scopes| == 1
  {
    hide GenParams;
    var g1 := GenResult(NewBlock(EnterScope(BLANK)), IRType(f.ret), f.name == "").value;
    assert |g1.scopes| == 1;
    ParamsBalanced(g1, f.params, 0);
  }

  /** The body leaves the stack of scopes as deep as it found it: only the function's own
      scope is left to close. */
  lemma BodyBalanced(sigs: Sigs, f: Function, g: Gen, g1: Gen)
    requires GenPrologue(f) == Ok(g) && Ready(g) && GenStmts(sigs, g, f.body) == Ok(g1)
    ensures |g1.scopes| == 1
  {
    hide GenPrologue, GenStmts, BlocksGrow;
    PrologueBalanced(f, g);
    StmtsGrow(sigs, g, f.body);
  }
}
