/** The result slot: a return stores to it at most once in a run, and then the run is over. */
module ReturnStore {
  import opened Ast
  import opened IR
  import opened Typing
  import opened Codegen
  import Growth
  import Preservation
  import WellFormed

  // ----- which code touches the result slot -----

  /** Leaves slot 0, the result, alone and does not go back to the entry block. */
  predicate Harmless(i: Instr) {
    match i
    case Store(_, s) => s != 0
    case Alloca(s, _) => s != 0
    case CallScan(_, s) => s != 0
    case _ => 0 !in i.Targets()
  }

  /** The store of a return: the jump to the exit block comes right after it. */
  predicate StoreAndLeave(b: seq<Instr>, i: nat, exit: nat)
    requires i < |b|
  {
    b[i].Store? && b[i].slot == 0 && i + 1 < |b| && b[i + 1] == Br(exit)
  }

  /** From instruction `from` on. */
  predicate Careful(b: seq<Instr>, from: nat, exit: nat) {
    forall i | from <= i < |b| :: Harmless(b[i]) || StoreAndLeave(b, i, exit)
  }

  /** The first `p` instructions of the entry block set up the result slot. */
  function From(b: nat, p: nat): nat { if b == 0 then p else 0 }

  predicate CarefulCode(blocks: Blocks, p: nat, exit: nat) {
    forall b | 0 <= b < |blocks| :: Careful(blocks[b], From(b, p), exit)
  }

  predicate NotResult(sc: Scopes<nat>) { forall i, x | 0 <= i < |sc| && x in sc[i] :: sc[i][x].val != 0 }

  predicate Tidy(g: Gen, p: nat) {
    && Ready(g) && g.exit != 0 && g.nextSlot > 0 && g.scopes != []
    && (g.result.Some? ==> g.result.value.val == 0)
    && NotResult(g.scopes)
    && CarefulCode(g.blocks, p, g.exit)
    && p <= |g.blocks[0]|
  }

  // ----- expressions never touch it -----

  predicate Quiet(g: Gen, g': Gen)
    requires Ready(g)
  {
    Appends(g, g') && forall k | |g.blocks[g.cur]| <= k < |g'.blocks[g.cur]| :: Harmless(g'.blocks[g.cur][k])
  }

  lemma QuietTrans(g: Gen, g1: Gen, g2: Gen)
    requires Ready(g) && Quiet(g, g1) && Quiet(g1, g2)
    ensures Quiet(g, g2)
  {
  }

  lemma DefineQuiet(g: Gen, i: Instr)
    requires Ready(g) && Harmless(i) && !i.IsTerminator()
    ensures Quiet(g, Define(g, i))
  {
  }

  lemma EnsureTypeQuiet(g: Gen, v: Operand, ty: Ty, fail: CgError)
    requires Ready(g) && EnsureType(g, v, ty, fail).Ok?
    ensures Quiet(g, EnsureType(g, v, ty, fail).value.0)
  {
  }

  lemma TruthinessQuiet(g: Gen, v: Val)
    requires Ready(g) && Truthiness(g, v).Ok?
    ensures Quiet(g, Truthiness(g, v).value.0)
  {
    hide EnsureType, Quiet;
    if v.cmp {
      SelfQuiet(g);
    } else {
      EnsureTypeQuiet(g, Const(I64, 0), v.op.ty, InternalError);
      var (g1, zero) := EnsureType(g, Const(I64, 0), v.op.ty, InternalError).value;
      DefineQuiet(g1, Cmp(g1.nextReg, INE, v.op, zero));
      QuietTrans(g, g1, Truthiness(g, v).value.0);
    }
  }

  lemma SelfQuiet(g: Gen)
    requires Ready(g)
    ensures Quiet(g, g)
  {
  }

  lemma OpQuiet(g: Gen, op: Op, ty: Ty, a: Operand, b: Operand)
    requires Ready(g) && GenOp(g, op, ty, a, b).Ok?
    ensures Quiet(g, GenOp(g, op, ty, a, b).value.0)
  {
  }

  lemma OperationQuiet(g: Gen, op: Op, ty: Ty, l: Operand, r: Operand)
    requires Ready(g) && GenOperation(g, op, ty, l, r).Ok?
    ensures Quiet(g, GenOperation(g, op, ty, l, r).value.0)
  {
    hide EnsureType, GenOp, Quiet;
    EnsureTypeQuiet(g, l, ty, InternalError);
    var (g1, a) := EnsureType(g, l, ty, InternalError).value;
    EnsureTypeQuiet(g1, r, ty, InternalError);
    var (g2, b) := EnsureType(g1, r, ty, InternalError).value;
    OpQuiet(g2, op, ty, a, b);
    QuietTrans(g, g1, g2);
    QuietTrans(g, g2, GenOperation(g, op, ty, l, r).value.0);
  }

  lemma {:induction false} ExprQuiet(sigs: Sigs, g: Gen, e: Expr)
    requires Ready(g) && GenExpr(sigs, g, e).Ok?
    ensures Quiet(g, GenExpr(sigs, g, e).value.0)
    decreases e
  {
    hide Quiet, GenOperation;
    match e
    case Identifier(x) =>
      var b := g.scopes[Level(g.scopes, x).value][x];
      DefineQuiet(g, Load(g.nextReg, b.ty, b.val));
    case Binary(op, l, r, _) =>
      ExprQuiet(sigs, g, l);
      var (g1, lv) := GenExpr(sigs, g, l).value;
      ExprQuiet(sigs, g1, r);
      var (g2, rv) := GenExpr(sigs, g1, r).value;
      var ty := CalcType(sigs, g2.scopes, e).value;
      OperationQuiet(g2, op, ty, lv.op, rv.op);
      QuietTrans(g, g1, g2);
      QuietTrans(g, g2, GenOperation(g2, op, ty, lv.op, rv.op).value.0);
    case Call(fn, args) =>
      ArgsQuiet(sigs, g, args, sigs[fn].params);
      var (g1, ops) := GenArgs(sigs, g, args, sigs[fn].params).value;
      DefineQuiet(g1, CallFn(g1.nextReg, fn, sigs[fn].ret, ops));
      QuietTrans(g, g1, GenExpr(sigs, g, e).value.0);
    case _ => SelfQuiet(g);
  }

  lemma {:induction false} ArgsQuiet(sigs: Sigs, g: Gen, args: seq<Expr>, params: seq<Ty>)
    requires Ready(g) && GenArgs(sigs, g, args, params).Ok?
    ensures Quiet(g, GenArgs(sigs, g, args, params).value.0)
    decreases args
  {
    hide Quiet, EnsureType, GenExpr;
    if args == [] {
      SelfQuiet(g);
    } else {
      ExprQuiet(sigs, g, args[0]);
      var (g1, v) := GenExpr(sigs, g, args[0]).value;
      EnsureTypeQuiet(g1, v.op, params[0], CannotPass);
      var (g2, o) := EnsureType(g1, v.op, params[0], CannotPass).value;
      ArgsQuiet(sigs, g2, args[1..], params[1..]);
      var g3 := GenArgs(sigs, g2, args[1..], params[1..]).value.0;
      QuietTrans(g, g1, g2);
      QuietTrans(g, g2, g3);
    }
  }

  lemma ConditionQuiet(sigs: Sigs, g: Gen, e: Expr)
    requires Ready(g) && GenCondition(sigs, g, e).Ok?
    ensures Quiet(g, GenCondition(sigs, g, e).value.0)
  {
    hide Quiet, GenExpr, Truthiness;
    ExprQuiet(sigs, g, e);
    var (g1, v) := GenExpr(sigs, g, e).value;
    TruthinessQuiet(g1, v);
    QuietTrans(g, g1, GenCondition(sigs, g, e).value.0);
  }

  // ----- steps of the builder -----

  lemma QuietTidy(g: Gen, g': Gen, p: nat)
    requires Tidy(g, p) && Quiet(g, g')
    ensures Tidy(g', p)
  {
    var was, now, from := g.blocks[g.cur], g'.blocks[g.cur], From(g.cur, p);
    assert Careful(was, from, g.exit);
    CarefulMore(was, now, from, g.exit);
  }

  lemma CarefulMore(b: seq<Instr>, b': seq<Instr>, from: nat, exit: nat)
    requires Careful(b, from, exit) && b <= b' && forall k | |b| <= k < |b'| :: Harmless(b'[k])
    ensures Careful(b', from, exit)
  {
    forall i | from <= i < |b'|
      ensures Harmless(b'[i]) || StoreAndLeave(b', i, exit)
    {
      if i < |b| && !Harmless(b[i]) {
        assert StoreAndLeave(b, i, exit);
        assert b'[i] == b[i] && b'[i + 1] == b[i + 1];
      }
    }
  }

  lemma EmitTidy(g: Gen, i: Instr, p: nat)
    requires Tidy(g, p) && Harmless(i)
    ensures Tidy(Emit(g, i), p)
  {
    var was, from := g.blocks[g.cur], From(g.cur, p);
    assert Careful(was, from, g.exit);
    CarefulMore(was, was + [i], from, g.exit);
  }

  lemma SlotTidy(g: Gen, ty: Ty, p: nat)
    requires Tidy(g, p)
    ensures Tidy(NewSlot(g, ty), p)
  {
    hide Tidy;
    SlotPositive(g, p);
    ReadyWhenTidy(g, p);
    EmitTidy(g, Alloca(g.nextSlot, ty), p);
    MoreSlots(Emit(g, Alloca(g.nextSlot, ty)), p);
  }

  lemma SlotPositive(g: Gen, p: nat)
    requires Tidy(g, p)
    ensures g.nextSlot > 0
  {
  }

  lemma MoreSlots(g: Gen, p: nat)
    requires Tidy(g, p)
    ensures Tidy(g.(nextSlot := g.nextSlot + 1), p)
  {
  }

  lemma CreateTidy(g: Gen, p: nat)
    requires Tidy(g, p)
    ensures Tidy(CreateBlock(g), p) && Tidy(NewBlock(g), p)
  {
    assert Careful([], 0, g.exit);
  }

  lemma GoTidy(g: Gen, b: nat, p: nat)
    requires Tidy(g, p) && b < |g.blocks|
    ensures Tidy(g.(cur := b), p) && Tidy(InsertBlock(g, b), p)
  {
  }

  lemma BranchTidy(g: Gen, b: nat, p: nat)
    requires Tidy(g, p) && 0 < b < |g.blocks|
    ensures Tidy(BranchTo(g, b), p)
  {
    hide Tidy;
    ReadyWhenTidy(g, p);
    EmitTidy(g, Br(b), p);
    GoTidy(Emit(g, Br(b)), b, p);
  }

  lemma ReadyWhenTidy(g: Gen, p: nat)
    requires Tidy(g, p)
    ensures Ready(g) && g.exit != 0
  {
  }

  /** Ends the current block and goes on in one created earlier. */
  lemma CloseTidy(g: Gen, i: Instr, b: nat, p: nat)
    requires Tidy(g, p) && Harmless(i) && b < |g.blocks|
    ensures Tidy(InsertBlock(Emit(g, i), b).(cur := b), p)
  {
    hide Tidy;
    ReadyWhenTidy(g, p);
    EmitTidy(g, i, p);
    GoTidy(Emit(g, i), b, p);
    GoTidy(InsertBlock(Emit(g, i), b), b, p);
  }

  lemma EnterTidy(g: Gen, p: nat)
    requires Tidy(g, p)
    ensures Tidy(EnterScope(g), p)
  {
  }

  lemma LeaveTidy(g: Gen, p: nat)
    requires Tidy(g, p) && |g.scopes| > 1
    ensures Tidy(LeaveScope(g), p)
  {
  }

  // ----- statements -----

  lemma StoreTidy(g: Gen, v: Operand, ty: Ty, fail: CgError, slot: nat, p: nat)
    requires Tidy(g, p) && EnsureType(g, v, ty, fail).Ok? && slot != 0
    ensures var (g1, o) := EnsureType(g, v, ty, fail).value; Tidy(Emit(g1, Store(o, slot)), p)
  {
    hide Tidy, Quiet, EnsureType;
    ReadyWhenTidy(g, p);
    EnsureTypeQuiet(g, v, ty, fail);
    var (g1, o) := EnsureType(g, v, ty, fail).value;
    QuietTidy(g, g1, p);
    EmitTidy(g1, Store(o, slot), p);
  }

  lemma BindTidy(g: Gen, x: string, ty: Ty, p: nat)
    requires Tidy(g, p)
    ensures Tidy(NewSlot(g, ty).(scopes := Bind(g.scopes, x, Binding(ty, g.nextSlot))), p)
  {
    hide CarefulCode;
    SlotTidy(g, ty, p);
    BindNotResult(g.scopes, x, ty, g.nextSlot);
  }

  lemma BindNotResult(sc: Scopes<nat>, x: string, ty: Ty, slot: nat)
    requires sc != [] && NotResult(sc) && slot != 0
    ensures Bind(sc, x, Binding(ty, slot)) != [] && NotResult(Bind(sc, x, Binding(ty, slot)))
  {
  }

  lemma VardeclTidy(sigs: Sigs, g: Gen, x: string, ty: Ty, init: Option<Expr>, p: nat)
    requires Tidy(g, p) && GenVardecl(sigs, g, x, ty, init).Ok?
    ensures Tidy(GenVardecl(sigs, g, x, ty, init).value, p)
  {
    hide Tidy, EnsureType, GenExpr, NewSlot;
    SlotPositive(g, p);
    ReadyWhenTidy(g, p);
    BindTidy(g, x, ty, p);
    if init.Some? {
      var g2 := NewSlot(g, ty).(scopes := Bind(g.scopes, x, Binding(ty, g.nextSlot)));
      ReadyWhenTidy(g2, p);
      ExprQuiet(sigs, g2, init.value);
      var (g3, v) := GenExpr(sigs, g2, init.value).value;
      QuietTidy(g2, g3, p);
      StoreTidy(g3, v.op, ty, CannotInitialize, g.nextSlot, p);
    }
  }

  lemma VisibleSlot(g: Gen, x: string, p: nat)
    requires Tidy(g, p) && Level(g.scopes, x).Some?
    ensures g.scopes[Level(g.scopes, x).value][x].val != 0
  {
  }

  lemma AssignTidy(sigs: Sigs, g: Gen, x: string, e: Expr, p: nat)
    requires Tidy(g, p) && Ready(g) && GenAssign(sigs, g, x, e).Ok?
    ensures Tidy(GenAssign(sigs, g, x, e).value, p)
  {
    hide Tidy, EnsureType, GenExpr;
    ExprQuiet(sigs, g, e);
    var (g1, v) := GenExpr(sigs, g, e).value;
    QuietTidy(g, g1, p);
    VisibleSlot(g1, x, p);
    var b := g1.scopes[Level(g1.scopes, x).value][x];
    StoreTidy(g1, v.op, b.ty, CannotAssign, b.val, p);
  }

  lemma InputTidy(g: Gen, x: string, p: nat)
    requires Tidy(g, p) && Ready(g) && GenInput(g, x).Ok?
    ensures Tidy(GenInput(g, x).value, p)
  {
    hide Tidy, Truthiness, NewSlot, Emit;
    VisibleSlot(g, x, p);
    SlotPositive(g, p);
    var b := g.scopes[Level(g.scopes, x).value][x];
    if b.ty != I1 {
      EmitTidy(g, CallScan(b.ty, b.val), p);
    } else {
      SlotTidy(g, I32, p);
      ReadyWhenTidy(NewSlot(g, I32), p);
      var g1 := Emit(NewSlot(g, I32), CallScan(I1, g.nextSlot));
      EmitTidy(NewSlot(g, I32), CallScan(I1, g.nextSlot), p);
      ReadyWhenTidy(g1, p);
      BoolTidy(g1, g.nextSlot, b.val, p);
    }
  }

  /** Loading a boolean that was read and storing it. */
  lemma BoolTidy(g1: Gen, tmp: nat, slot: nat, p: nat)
    requires Tidy(g1, p) && Ready(g1) && slot != 0
    requires var g2 := Define(g1, Load(g1.nextReg, I1, tmp)); Truthiness(g2, Val(Reg(I1, g1.nextReg), false)).Ok?
    ensures var g2 := Define(g1, Load(g1.nextReg, I1, tmp));
            var (g3, o) := Truthiness(g2, Val(Reg(I1, g1.nextReg), false)).value;
            Tidy(Emit(g3, Store(o, slot)), p)
  {
    hide Tidy, Truthiness, Quiet;
    var g2 := Define(g1, Load(g1.nextReg, I1, tmp));
    DefineQuiet(g1, Load(g1.nextReg, I1, tmp));
    QuietTidy(g1, g2, p);
    TruthinessQuiet(g2, Val(Reg(I1, g1.nextReg), false));
    var (g3, o) := Truthiness(g2, Val(Reg(I1, g1.nextReg), false)).value;
    QuietTidy(g2, g3, p);
    EmitTidy(g3, Store(o, slot), p);
  }

  lemma PrintTidy(sigs: Sigs, g: Gen, e: Expr, p: nat)
    requires Tidy(g, p) && Ready(g) && GenPrint(sigs, g, e).Ok?
    ensures Tidy(GenPrint(sigs, g, e).value, p)
  {
    hide Tidy, GenExpr, Quiet;
    ExprQuiet(sigs, g, e);
    var (g1, v) := GenExpr(sigs, g, e).value;
    QuietTidy(g, g1, p);
    var ty, d := v.op.ty, g1.nextReg;
    if ty.IsInt() && ty.Bits() < 32 {
      DefineQuiet(g1, Cast(d, ZExt, v.op, I32));
      QuietTidy(g1, Define(g1, Cast(d, ZExt, v.op, I32)), p);
      EmitTidy(Define(g1, Cast(d, ZExt, v.op, I32)), CallPrint(ty, Reg(I32, d)), p);
    } else if ty.F32? {
      DefineQuiet(g1, Cast(d, FPCast, v.op, F64));
      QuietTidy(g1, Define(g1, Cast(d, FPCast, v.op, F64)), p);
      EmitTidy(Define(g1, Cast(d, FPCast, v.op, F64)), CallPrint(ty, Reg(F64, d)), p);
    } else {
      EmitTidy(g1, CallPrint(ty, v.op), p);
    }
  }

  lemma AssertTidy(sigs: Sigs, g: Gen, e: Expr, p: nat)
    requires Tidy(g, p) && Ready(g) && GenAssert(sigs, g, e).Ok?
    ensures Tidy(GenAssert(sigs, g, e).value, p)
  {
    hide Tidy, GenCondition, Quiet;
    var n, g0 := |g.blocks|, NewBlock(NewBlock(NewBlock(g)));
    CreateTidy(g, p);
    CreateTidy(NewBlock(g), p);
    CreateTidy(NewBlock(NewBlock(g)), p);
    BranchTidy(g0, n, p);
    var g1 := BranchTo(g0, n);
    ConditionQuiet(sigs, g1, e);
    var (g2, c) := GenCondition(sigs, g1, e).value;
    QuietTidy(g1, g2, p);
    CondBrHarmless(c, n + 2, n + 1);
    EmitTidy(g2, CondBr(c, n + 2, n + 1), p);
    var g3 := Emit(g2, CondBr(c, n + 2, n + 1));
    GoTidy(g3, n + 1, p);
    EmitTidy(g3.(cur := n + 1), CallAbort, p);
    BranchTidy(Emit(g3.(cur := n + 1), CallAbort), n + 2, p);
  }

  lemma CondBrHarmless(c: Operand, yes: nat, no: nat)
    requires yes != 0 && no != 0
    ensures Harmless(CondBr(c, yes, no))
  {
  }

  /** The store of a return value and the jump that follows it. */
  lemma LeaveStoreTidy(g: Gen, o: Operand, p: nat)
    requires Tidy(g, p)
    ensures Tidy(Emit(Emit(g, Store(o, 0)), Br(g.exit)), p)
  {
    var b, from := g.blocks[g.cur], From(g.cur, p);
    var b' := b + [Store(o, 0)] + [Br(g.exit)];
    assert Careful(b, from, g.exit);
    forall i | from <= i < |b'|
      ensures Harmless(b'[i]) || StoreAndLeave(b', i, g.exit)
    {
      if i < |b| && !Harmless(b[i]) {
        assert StoreAndLeave(b, i, g.exit);
        assert b'[i] == b[i] && b'[i + 1] == b[i + 1];
      }
    }
  }

  lemma AfterReturnTidy(g: Gen, p: nat)
    requires Tidy(g, p)
    ensures var g2 := NewBlock(g); Tidy(Emit(g2.(cur := |g.blocks|), Unreachable), p)
  {
    hide Tidy;
    CreateTidy(g, p);
    GoTidy(NewBlock(g), |g.blocks|, p);
    EmitTidy(NewBlock(g).(cur := |g.blocks|), Unreachable, p);
  }

  lemma ReturnTidy(sigs: Sigs, g: Gen, value: Option<Expr>, p: nat)
    requires Tidy(g, p) && Ready(g) && GenReturn(sigs, g, value).Ok?
    ensures Tidy(GenReturn(sigs, g, value).value, p)
  {
    hide Tidy, GenExpr, EnsureType, Quiet;
    ReadyWhenTidy(g, p);
    match value
    case None =>
      EmitTidy(g, Br(g.exit), p);
      AfterReturnTidy(Emit(g, Br(g.exit)), p);
    case Some(e) =>
      ExprQuiet(sigs, g, e);
      var (g1, v) := GenExpr(sigs, g, e).value;
      QuietTidy(g, g1, p);
      ResultIsZero(g, p);
      EnsureTypeQuiet(g1, v.op, g.result.value.ty, CannotReturn);
      var (g2, o) := EnsureType(g1, v.op, g.result.value.ty, CannotReturn).value;
      QuietTidy(g1, g2, p);
      LeaveStoreTidy(g2, o, p);
      AfterReturnTidy(Emit(Emit(g2, Store(o, 0)), Br(g.exit)), p);
  }

  lemma ResultIsZero(g: Gen, p: nat)
    requires Tidy(g, p)
    ensures g.result.Some? ==> g.result.value.val == 0
  {
  }

  lemma {:induction false} StmtTidy(sigs: Sigs, g: Gen, s: Stmt, p: nat)
    requires Tidy(g, p) && Ready(g) && GenStmt(sigs, g, s).Ok?
    ensures Tidy(GenStmt(sigs, g, s).value, p)
    decreases s, 2
  {
    hide Tidy;
    match s
    case Assert(e) => AssertTidy(sigs, g, e, p);
    case Input(x) => InputTidy(g, x, p);
    case Abort => EmitTidy(g, CallAbort, p);
    case Vardecl(x, t, init) => VardeclTidy(sigs, g, x, IRType(t), init, p);
    case Return(v) => ReturnTidy(sigs, g, v, p);
    case Print(e) => PrintTidy(sigs, g, e, p);
    case Assign(x, e) => AssignTidy(sigs, g, x, e, p);
    case ExprStmt(e) =>
      ExprQuiet(sigs, g, e);
      QuietTidy(g, GenExpr(sigs, g, e).value.0, p);
    case Loop(_, _) => LoopTidy(sigs, g, s, p);
    case Branch(_, _, _) => BranchStmtTidy(sigs, g, s, p);
  }

  lemma {:induction false} StmtsTidy(sigs: Sigs, g: Gen, body: seq<Stmt>, p: nat)
    requires Tidy(g, p) && Ready(g) && GenStmts(sigs, g, body).Ok?
    ensures Tidy(GenStmts(sigs, g, body).value, p)
    decreases body
  {
    hide Tidy, GenStmt;
    if body != [] {
      StmtTidy(sigs, g, body[0], p);
      StmtsTidy(sigs, GenStmt(sigs, g, body[0]).value, body[1..], p);
    }
  }

  /** The depth of the scopes after a body. */
  lemma BodyDepth(sigs: Sigs, g: Gen, body: seq<Stmt>)
    requires Ready(g) && g.scopes != [] && GenStmts(sigs, g, body).Ok?
    ensures |GenStmts(sigs, g, body).value.scopes| == |g.scopes|
  {
    hide GenStmts;
    Growth.StmtsGrow(sigs, g, body);
  }

  lemma ScopesSome(g: Gen, p: nat)
    requires Tidy(g, p)
    ensures g.scopes != [] && g.blocks != []
  {
  }

  lemma {:induction false} LoopTidy(sigs: Sigs, g: Gen, s: Stmt, p: nat)
    requires Tidy(g, p) && Ready(g) && s.Loop? && GenLoop(sigs, g, s).Ok?
    ensures Tidy(GenLoop(sigs, g, s).value, p)
    decreases s, 1
  {
    hide Tidy, GenStmts, GenCondition, Quiet;
    var head := |g.blocks|;
    ScopesSome(g, p);
    CreateTidy(g, p);
    BranchTidy(NewBlock(g), head, p);
    EnterTidy(BranchTo(NewBlock(g), head), p);
    var g1 := EnterScope(BranchTo(NewBlock(g), head));
    StmtsTidy(sigs, g1, s.body, p);
    var g2 := GenStmts(sigs, g1, s.body).value;
    BodyDepth(sigs, g1, s.body);
    LeaveTidy(g2, p);
    var test := |g2.blocks|;
    CreateTidy(LeaveScope(g2), p);
    CreateTidy(NewBlock(LeaveScope(g2)), p);
    BranchTidy(CreateBlock(NewBlock(LeaveScope(g2))), test, p);
    var g3 := BranchTo(CreateBlock(NewBlock(LeaveScope(g2))), test);
    ConditionQuiet(sigs, g3, s.cond);
    var (g4, c) := GenCondition(sigs, g3, s.cond).value;
    QuietTidy(g3, g4, p);
    CondBrHarmless(c, head, test + 1);
    CloseTidy(g4, CondBr(c, head, test + 1), test + 1, p);
  }

  lemma {:induction false} BranchStmtTidy(sigs: Sigs, g: Gen, s: Stmt, p: nat)
    requires Tidy(g, p) && Ready(g) && s.Branch? && GenBranch(sigs, g, s).Ok?
    ensures Tidy(GenBranch(sigs, g, s).value, p)
    decreases s, 1
  {
    hide Tidy, GenCases, GenElse;
    var n := |g.blocks|;
    ScopesSome(g, p);
    CreateTidy(g, p);
    CreateTidy(NewBlock(g), p);
    BranchTidy(CreateBlock(NewBlock(g)), n, p);
    CreateTidy(BranchTo(CreateBlock(NewBlock(g)), n), p);
    var g0 := NewBlock(BranchTo(CreateBlock(NewBlock(g)), n));
    BranchTidy(g0, n + 2, p);
    var g1 := BranchTo(g0, n + 2);
    CasesTidy(sigs, g1, s.cases, n + 1, p);
    var g2 := GenCases(sigs, g1, s.cases, n + 1).value;
    ElseTidy(sigs, g2, s.els, p);
    CloseTidy(GenElse(sigs, g2, s.els).value, Br(n + 1), n + 1, p);
  }

  lemma {:induction false} ElseTidy(sigs: Sigs, g: Gen, els: Else, p: nat)
    requires Tidy(g, p) && Ready(g) && GenElse(sigs, g, els).Ok?
    ensures Tidy(GenElse(sigs, g, els).value, p)
    decreases els
  {
    hide Tidy, GenStmts;
    if els.Else? {
      ScopesSome(g, p);
      EnterTidy(g, p);
      CreateTidy(EnterScope(g), p);
      BranchTidy(NewBlock(EnterScope(g)), |g.blocks|, p);
      var g1 := BranchTo(NewBlock(EnterScope(g)), |g.blocks|);
      StmtsTidy(sigs, g1, els.body, p);
      BodyDepth(sigs, g1, els.body);
      LeaveTidy(GenStmts(sigs, g1, els.body).value, p);
    }
  }

  lemma {:induction false} CaseTidy(sigs: Sigs, g: Gen, c: Case, exit: nat, p: nat)
    requires Tidy(g, p) && Ready(g) && exit != 0 && GenCase(sigs, g, c, exit).Ok?
    ensures Tidy(GenCase(sigs, g, c, exit).value, p)
    decreases c
  {
    hide Tidy, GenStmts, GenCondition, Quiet;
    ScopesSome(g, p);
    ConditionQuiet(sigs, g, c.cond);
    var (g1, v) := GenCondition(sigs, g, c.cond).value;
    QuietTidy(g, g1, p);
    var next, body := |g1.blocks|, |g1.blocks| + 1;
    CreateTidy(g1, p);
    CreateTidy(CreateBlock(g1), p);
    CondBrHarmless(v, body, next);
    EmitTidy(NewBlock(CreateBlock(g1)), CondBr(v, body, next), p);
    GoTidy(Emit(NewBlock(CreateBlock(g1)), CondBr(v, body, next)), body, p);
    var g2 := Emit(NewBlock(CreateBlock(g1)), CondBr(v, body, next)).(cur := body);
    StmtsTidy(sigs, g2, c.body, p);
    CloseTidy(GenStmts(sigs, g2, c.body).value, Br(exit), next, p);
  }

  lemma {:induction false} CasesTidy(sigs: Sigs, g: Gen, cases: seq<Case>, exit: nat, p: nat)
    requires Tidy(g, p) && Ready(g) && exit != 0 && GenCases(sigs, g, cases, exit).Ok?
    ensures Tidy(GenCases(sigs, g, cases, exit).value, p)
    decreases cases
  {
    hide Tidy, GenCase;
    if cases != [] {
      CaseTidy(sigs, g, cases[0], exit, p);
      CasesTidy(sigs, GenCase(sigs, g, cases[0], exit).value, cases[1..], exit, p);
    }
  }

  // ----- functions -----

  /** The code that sets up the result slot of a function that returns something. */
  predicate SetsUp(b: seq<Instr>, ret: Ty, entryPoint: bool) {
    && b != [] && b[0] == Alloca(0, ret)
    && (entryPoint ==> |b| >= 3 && b[1] == Cast(0, Trunc, Const(I64, 0), ret) && b[2] == Store(Reg(ret, 0), 0))
  }

  function SetupSize(entryPoint: bool): nat { if entryPoint then 3 else 1 }

  lemma ResultSetUp(f: Function, g1: Gen)
    requires !IRType(f.ret).Void? && GenResult(NewBlock(EnterScope(BLANK)), IRType(f.ret), f.name == "") == Ok(g1)
    ensures g1.cur == 0 && |g1.blocks| == 1 && SetsUp(g1.blocks[0], IRType(f.ret), f.name == "")
    ensures |g1.blocks[0]| == SetupSize(f.name == "") && g1.nextSlot == 1 && g1.scopes == [map[]]
    ensures g1.result == Some(Binding(IRType(f.ret), 0))
  {
  }

  lemma {:induction false} ParamsHarmless(g: Gen, params: seq<Param>, index: nat, p: nat)
    requires Ready(g) && |g.blocks| == 1 && g.nextSlot > 0 && NotResult(g.scopes) && p <= |g.blocks[0]|
    requires GenParams(g, params, index).Ok? && forall i | p <= i < |g.blocks[0]| :: Harmless(g.blocks[0][i])
    ensures var g' := GenParams(g, params, index).value;
            && |g'.blocks| == 1 && g'.nextSlot > 0 && NotResult(g'.scopes) && g'.result == g.result
            && (g.scopes != [] ==> g'.scopes != [])
            && g.blocks[0] <= g'.blocks[0] && (forall i | p <= i < |g'.blocks[0]| :: Harmless(g'.blocks[0][i]))
    decreases params
  {
    if params != [] {
      var x, ty := params[0].name, IRType(params[0].ty);
      var g1 := Emit(NewSlot(g, ty), Store(Arg(ty, index), g.nextSlot)).(scopes := Bind(g.scopes, x, Binding(ty, g.nextSlot)));
      BindNotResult(g.scopes, x, ty, g.nextSlot);
      assert g1.blocks[0] == g.blocks[0] + [Alloca(g.nextSlot, ty), Store(Arg(ty, index), g.nextSlot)];
      ParamsHarmless(g1, params[1..], index + 1, p);
    }
  }

  lemma PrologueTidy(f: Function, g: Gen)
    requires !IRType(f.ret).Void? && GenPrologue(f) == Ok(g)
    ensures Ready(g) && Tidy(g, SetupSize(f.name == "")) && SetsUp(g.blocks[0], IRType(f.ret), f.name == "")
    ensures g.exit == 1 && g.result == Some(Binding(IRType(f.ret), 0))
  {
    hide GenResult, GenParams;
    var p, g1 := SetupSize(f.name == ""), GenResult(NewBlock(EnterScope(BLANK)), IRType(f.ret), f.name == "").value;
    ResultSetUp(f, g1);
    ParamsHarmless(g1, f.params, 0, p);
    assert Careful(g.blocks[0], p, 1) && Careful(g.blocks[1], 0, 1);
  }

  /** What is known of the finished code: how it begins, how it ends, and that in between
      only returns store to slot 0. */
  predicate ReturnCode(code: Blocks, ret: Ty, entryPoint: bool) {
    && 1 < |code| && SetsUp(code[0], ret, entryPoint)
    && (forall b | 0 <= b < |code| :: Careful(code[b], From(b, SetupSize(entryPoint)), 1))
    && |code[1]| == 2 && code[1][0].Load? && code[1][0] == Load(code[1][0].dst, ret, 0)
    && code[1][1] == Ret(Reg(ret, code[1][0].dst))
  }

  lemma CodeReturns(sigs: Sigs, f: Function, gf: Gen)
    requires GenFunction(sigs, f) == Ok(gf) && !IRType(f.ret).Void?
    ensures ReturnCode(gf.blocks, IRType(f.ret), f.name == "")
  {
    hide GenPrologue, GenStmts, GenEpilogue, Tidy, SetsUp;
    var p := SetupSize(f.name == "");
    var g, g1 := Preservation.FunctionShape(sigs, f, gf);
    PrologueTidy(f, g);
    StmtsTidy(sigs, g, f.body, p);
    Preservation.ExitUntouched(sigs, f, g, g1);
    EpilogueReturns(g, g1, IRType(f.ret), f.name == "");
  }

  lemma EpilogueReturns(g: Gen, g1: Gen, ret: Ty, entryPoint: bool)
    requires Tidy(g1, SetupSize(entryPoint)) && Growth.BlocksGrow(g, g1) && g.blocks != [] && SetsUp(g.blocks[0], ret, entryPoint)
    requires g1.exit == 1 && g1.result == Some(Binding(ret, 0)) && 1 < |g1.blocks| && g1.blocks[1] == [] && g1.cur != 1
    ensures ReturnCode(GenEpilogue(g1).blocks, ret, entryPoint)
  {
    hide Tidy, SetsUp;
    var p := SetupSize(entryPoint);
    ReadyWhenTidy(g1, p);
    EmitTidy(g1, Br(1), p);
    var g2 := Emit(g1, Br(1));
    GoTidy(g2, 1, p);
    GoTidy(InsertBlock(g2, 1), 1, p);
    var g3 := InsertBlock(g2, 1).(cur := 1);
    EmitTidy(g3, Load(g3.nextReg, ret, 0), p);
    var g4 := Define(g3, Load(g3.nextReg, ret, 0));
    SameCodeTidy(Emit(g3, Load(g3.nextReg, ret, 0)), g4, p);
    EmitTidy(g4, Ret(Reg(ret, g3.nextReg)), p);
    var code := GenEpilogue(g1).blocks;
    assert code == Emit(g4, Ret(Reg(ret, g3.nextReg))).blocks;
    assert code[1] == [Load(g3.nextReg, ret, 0), Ret(Reg(ret, g3.nextReg))];
    TidyIsCareful(Emit(g4, Ret(Reg(ret, g3.nextReg))), p);
    assert g.blocks[0] <= g1.blocks[0] <= code[0];
    SetUpKept(g.blocks[0], code[0], ret, entryPoint);
  }

  lemma SameCodeTidy(g: Gen, g': Gen, p: nat)
    requires Tidy(g, p) && g' == g.(nextReg := g'.nextReg)
    ensures Tidy(g', p)
  {
  }

  lemma TidyIsCareful(g: Gen, p: nat)
    requires Tidy(g, p)
    ensures forall b | 0 <= b < |g.blocks| :: Careful(g.blocks[b], From(b, p), g.exit)
  {
  }

  lemma SetUpKept(b: seq<Instr>, b': seq<Instr>, ret: Ty, entryPoint: bool)
    requires SetsUp(b, ret, entryPoint) && b <= b'
    ensures SetsUp(b', ret, entryPoint)
  {
  }

  // ----- runs -----

  /** How the run ends whose next instruction stores a result. */
  function Stored(args: seq<int>, code: Blocks, m: MState): Outcome
    requires m.blk < |code| && m.pc < |code[m.blk]| && code[m.blk][m.pc].Store?
  {
    match OperandValue(args, m, code[m.blk][m.pc].v)
    case Some(n) => Returned(Some(n))
    case None => IllFormed
  }

  /** The machine is about to execute the store of a return statement. */
  predicate AtReturnStore(code: Blocks, entryPoint: bool, m: MState) {
    && m.blk < |code| && From(m.blk, SetupSize(entryPoint)) <= m.pc < |code[m.blk]|
    && code[m.blk][m.pc].Store? && code[m.blk][m.pc].slot == 0
  }

  function After(code: Blocks, env: Env, args: seq<int>, t: seq<Event>, k: nat): Config {
    Run(code, env, args, Live(Entry(t)), k)
  }

  lemma OneMore(code: Blocks, env: Env, args: seq<int>, t: seq<Event>, k: nat)
    ensures After(code, env, args, t, k + 1) == Step(code, env, args, After(code, env, args, t, k))
  {
    RunAdds(code, env, args, Live(Entry(t)), k, 1);
    var c := After(code, env, args, t, k);
    assert Run(code, env, args, Step(code, env, args, c), 0) == Step(code, env, args, c);
  }

  /** From the second step on the result slot is there. */
  predicate HasSlot(m: MState, ret: Ty) { (m.blk == 0 && m.pc == 0) || (0 in m.mem && m.mem[0].ty == ret) }

  lemma StepKeepsSlot(code: Blocks, ret: Ty, entryPoint: bool, env: Env, args: seq<int>, m: MState, m': MState)
    requires ReturnCode(code, ret, entryPoint) && HasSlot(m, ret) && Step(code, env, args, Live(m)) == Live(m')
    ensures HasSlot(m', ret)
  {
    hide OperandValue, OperandValues, ApplyBin, ApplyCmp, ApplyCast, Wrap;
    var i := code[m.blk][m.pc];
    assert Careful(code[m.blk], From(m.blk, SetupSize(entryPoint)), 1);
    if m.pc >= From(m.blk, SetupSize(entryPoint)) && !Harmless(i) {
      assert StoreAndLeave(code[m.blk], m.pc, 1);
    }
  }

  lemma {:induction false} SlotStays(code: Blocks, ret: Ty, entryPoint: bool, env: Env, args: seq<int>, t: seq<Event>, k: nat)
    requires ReturnCode(code, ret, entryPoint) && After(code, env, args, t, k).Live?
    ensures HasSlot(After(code, env, args, t, k).m, ret)
    decreases k
  {
    hide ReturnCode, HasSlot, Step, Run;
    if k == 0 {
      AtStart(code, env, args, t, ret);
    } else {
      OneMore(code, env, args, t, k - 1);
      var c := After(code, env, args, t, k - 1);
      StepOfDone(code, env, args, c);
      SlotStays(code, ret, entryPoint, env, args, t, k - 1);
      StepKeepsSlot(code, ret, entryPoint, env, args, c.m, After(code, env, args, t, k).m);
    }
  }

  lemma AtStart(code: Blocks, env: Env, args: seq<int>, t: seq<Event>, ret: Ty)
    ensures After(code, env, args, t, 0) == Live(Entry(t)) && HasSlot(Entry(t), ret)
  {
  }

  lemma StepOfDone(code: Blocks, env: Env, args: seq<int>, c: Config)
    ensures c.Done? ==> Step(code, env, args, c) == c
  {
  }

  /** A return stores, jumps, loads what it stored and ends the run, causing no event. */
  lemma StoreEnds(code: Blocks, ret: Ty, entryPoint: bool, env: Env, args: seq<int>, m: MState)
    requires ReturnCode(code, ret, entryPoint) && AtReturnStore(code, entryPoint, m) && 0 in m.mem && m.mem[0].ty == ret
    ensures var c := Run(code, env, args, Live(m), 4);
            c == Done(Stored(args, code, m), m.trace)
  {
    hide ExecInstr, Run;
    assert Careful(code[m.blk], From(m.blk, SetupSize(entryPoint)), 1);
    assert !Harmless(code[m.blk][m.pc]);
    assert StoreAndLeave(code[m.blk], m.pc, 1);
    match OperandValue(args, m, code[m.blk][m.pc].v)
    case None =>
      StoreFails(env, args, code[m.blk][m.pc], m);
      RunFour(code, env, args, Live(m));
    case Some(n) =>
      var m1 := m.(pc := m.pc + 1, mem := m.mem[0 := Cell(ret, Some(n))]);
      var m2 := m1.(blk := 1, pc := 0);
      var m3 := m2.(pc := 1, regs := m2.regs[code[1][0].dst := n]);
      StoreWorks(env, args, code[m.blk][m.pc], m, n, ret);
      JumpWorks(env, args, m1);
      LoadWorks(env, args, code[1][0], m2, n, ret);
      RetWorks(env, args, code[1][1], m3, n);
      RunFour(code, env, args, Live(m));
  }

  lemma StoreFails(env: Env, args: seq<int>, i: Instr, m: MState)
    requires i.Store? && OperandValue(args, m, i.v).None?
    ensures ExecInstr(env, args, i, m) == Done(IllFormed, m.trace)
  {
  }

  lemma StoreWorks(env: Env, args: seq<int>, i: Instr, m: MState, n: int, ret: Ty)
    requires i.Store? && i.slot == 0 && OperandValue(args, m, i.v) == Some(n) && 0 in m.mem && m.mem[0].ty == ret
    ensures ExecInstr(env, args, i, m) == Live(m.(pc := m.pc + 1, mem := m.mem[0 := Cell(ret, Some(n))]))
  {
  }

  lemma JumpWorks(env: Env, args: seq<int>, m: MState)
    ensures ExecInstr(env, args, Br(1), m) == Live(m.(blk := 1, pc := 0))
  {
  }

  lemma LoadWorks(env: Env, args: seq<int>, i: Instr, m: MState, n: int, ret: Ty)
    requires i.Load? && i == Load(i.dst, ret, 0) && 0 in m.mem && m.mem[0] == Cell(ret, Some(n)) && m.pc == 0
    ensures ExecInstr(env, args, i, m) == Live(m.(pc := 1, regs := m.regs[i.dst := n]))
  {
  }

  lemma RetWorks(env: Env, args: seq<int>, i: Instr, m: MState, n: int)
    requires i.Ret? && i.v.Reg? && i.v.r in m.regs && m.regs[i.v.r] == n
    ensures ExecInstr(env, args, i, m) == Done(Returned(Some(n)), m.trace)
  {
  }

  lemma RunFour(code: Blocks, env: Env, args: seq<int>, c: Config)
    ensures var c1 := Step(code, env, args, c);
            var c2 := Step(code, env, args, c1);
            var c3 := Step(code, env, args, c2);
            Run(code, env, args, c, 4) == Step(code, env, args, c3)
  {
    hide Step;
    var c1 := Step(code, env, args, c);
    var c2 := Step(code, env, args, c1);
    var c3 := Step(code, env, args, c2);
    assert Run(code, env, args, c3, 1) == Run(code, env, args, Step(code, env, args, c3), 0);
    assert Run(code, env, args, c2, 2) == Run(code, env, args, c3, 1);
    assert Run(code, env, args, c1, 3) == Run(code, env, args, c2, 2);
  }

  /** Whenever a run of a function that returns something reaches the store of a return
      statement, it is over four steps later: nothing else in the source is executed, no
      other return stores, and the result is what was stored. */
  lemma ReturnEndsTheRun(sigs: Sigs, env: Env, f: Function, gf: Gen, args: seq<int>, t: seq<Event>, k: nat, m: MState)
    requires GenFunction(sigs, f) == Ok(gf) && !IRType(f.ret).Void?
    requires Run(gf.blocks, env, args, Live(Entry(t)), k) == Live(m)
    requires AtReturnStore(gf.blocks, f.name == "", m)
    ensures Run(gf.blocks, env, args, Live(Entry(t)), k + 4)
         == Done(Stored(args, gf.blocks, m), m.trace)
  {
    hide Run, ReturnCode, GenFunction;
    CodeReturns(sigs, f, gf);
    SlotStays(gf.blocks, IRType(f.ret), f.name == "", env, args, t, k);
    StoreEnds(gf.blocks, IRType(f.ret), f.name == "", env, args, m);
    RunAdds(gf.blocks, env, args, Live(Entry(t)), k, 4);
  }

  /** The three steps after it store nothing more. */
  lemma StoreThenNone(code: Blocks, ret: Ty, entryPoint: bool, env: Env, args: seq<int>, m: MState, j: nat)
    requires ReturnCode(code, ret, entryPoint) && AtReturnStore(code, entryPoint, m) && 0 in m.mem && m.mem[0].ty == ret
    requires 0 < j < 4
    ensures var c := Run(code, env, args, Live(m), j); c.Live? ==> !AtReturnStore(code, entryPoint, c.m)
  {
    hide ExecInstr, Run;
    assert Careful(code[m.blk], From(m.blk, SetupSize(entryPoint)), 1);
    assert !Harmless(code[m.blk][m.pc]);
    assert StoreAndLeave(code[m.blk], m.pc, 1);
    RunThree(code, env, args, Live(m));
    match OperandValue(args, m, code[m.blk][m.pc].v)
    case None => StoreFails(env, args, code[m.blk][m.pc], m);
    case Some(n) =>
      var m1 := m.(pc := m.pc + 1, mem := m.mem[0 := Cell(ret, Some(n))]);
      var m2 := m1.(blk := 1, pc := 0);
      StoreWorks(env, args, code[m.blk][m.pc], m, n, ret);
      JumpWorks(env, args, m1);
      LoadWorks(env, args, code[1][0], m2, n, ret);
  }

  lemma RunThree(code: Blocks, env: Env, args: seq<int>, c: Config)
    ensures var c1 := Step(code, env, args, c);
            var c2 := Step(code, env, args, c1);
            && Run(code, env, args, c, 1) == c1 && Run(code, env, args, c, 2) == c2
            && Run(code, env, args, c, 3) == Step(code, env, args, c2)
  {
    hide Step;
    var c1 := Step(code, env, args, c);
    var c2 := Step(code, env, args, c1);
    assert Run(code, env, args, c2, 1) == Run(code, env, args, Step(code, env, args, c2), 0);
    assert Run(code, env, args, c1, 2) == Run(code, env, args, c2, 1);
    assert Run(code, env, args, c1, 1) == Run(code, env, args, c2, 0);
  }

  /** In no run do two returns store a result. */
  lemma AtMostOneReturnStores(sigs: Sigs, env: Env, f: Function, gf: Gen, args: seq<int>, t: seq<Event>,
                              a: nat, m: MState, b: nat, m': MState)
    requires GenFunction(sigs, f) == Ok(gf) && !IRType(f.ret).Void?
    requires Run(gf.blocks, env, args, Live(Entry(t)), a) == Live(m) && AtReturnStore(gf.blocks, f.name == "", m)
    requires Run(gf.blocks, env, args, Live(Entry(t)), b) == Live(m') && AtReturnStore(gf.blocks, f.name == "", m')
    ensures a == b
  {
    hide Run, GenFunction, AtReturnStore, ReturnCode;
    if a < b {
      StoresOnce(sigs, env, f, gf, args, t, a, m, b, m');
    } else if b < a {
      StoresOnce(sigs, env, f, gf, args, t, b, m', a, m);
    }
  }

  lemma StoresOnce(sigs: Sigs, env: Env, f: Function, gf: Gen, args: seq<int>, t: seq<Event>,
                   a: nat, m: MState, b: nat, m': MState)
    requires GenFunction(sigs, f) == Ok(gf) && !IRType(f.ret).Void? && a < b
    requires Run(gf.blocks, env, args, Live(Entry(t)), a) == Live(m) && AtReturnStore(gf.blocks, f.name == "", m)
    requires Run(gf.blocks, env, args, Live(Entry(t)), b) == Live(m')
    ensures !AtReturnStore(gf.blocks, f.name == "", m')
  {
    hide Run, GenFunction, AtReturnStore, ReturnCode;
    var start := Live(Entry(t));
    RunAdds(gf.blocks, env, args, start, a, b - a);
    if b < a + 4 {
      CodeReturns(sigs, f, gf);
      SlotStays(gf.blocks, IRType(f.ret), f.name == "", env, args, t, a);
      SlotHere(gf.blocks, IRType(f.ret), f.name == "", m);
      StoreThenNone(gf.blocks, IRType(f.ret), f.name == "", env, args, m, b - a);
    } else {
      ReturnEndsTheRun(sigs, env, f, gf, args, t, a, m);
      RunAdds(gf.blocks, env, args, start, a + 4, b - (a + 4));
      RunDone(gf.blocks, env, args, Run(gf.blocks, env, args, start, a + 4), b - (a + 4));
    }
  }

  lemma SlotHere(code: Blocks, ret: Ty, entryPoint: bool, m: MState)
    requires HasSlot(m, ret) && AtReturnStore(code, entryPoint, m)
    ensures 0 in m.mem && m.mem[0].ty == ret
  {
  }

  // ----- the result of the entry point -----

  /** No return has stored yet: the slot is being set up, or holds zero. */
  predicate HoldsZero(code: Blocks, ret: Ty, m: MState)
    requires ReturnCode(code, ret, true)
  {
    if m.blk == 0 && m.pc == 0 then true
    else if m.blk == 0 && m.pc == 1 then 0 in m.mem && m.mem[0].ty == ret
    else if m.blk == 0 && m.pc == 2 then 0 in m.mem && m.mem[0].ty == ret && 0 in m.regs && m.regs[0] == 0
    else
      && 0 in m.mem && m.mem[0] == Cell(ret, Some(0))
      && (m.blk == 1 && m.pc == 1 ==> code[1][0].dst in m.regs && m.regs[code[1][0].dst] == 0)
  }

  lemma SetupKeepsZero(code: Blocks, ret: Ty, env: Env, args: seq<int>, m: MState, m': MState)
    requires ReturnCode(code, ret, true) && HoldsZero(code, ret, m) && m.blk == 0 && m.pc < 3
    requires Step(code, env, args, Live(m)) == Live(m')
    ensures HoldsZero(code, ret, m')
  {
    assert Wrap(ret, 0) == 0;
  }

  lemma RunKeepsZero(code: Blocks, ret: Ty, env: Env, args: seq<int>, m: MState, m': MState)
    requires ReturnCode(code, ret, true) && HoldsZero(code, ret, m) && !(m.blk == 0 && m.pc < 3)
    requires Step(code, env, args, Live(m)) == Live(m') && !AtReturnStore(code, true, m)
    ensures HoldsZero(code, ret, m')
  {
    hide OperandValue, OperandValues, ApplyBin, ApplyCmp, ApplyCast, Wrap;
    var i := code[m.blk][m.pc];
    OnlyReturnsStore(code[m.blk], From(m.blk, 3), m.pc, 1);
    HarmlessKeeps(env, args, i, m);
  }

  lemma OnlyReturnsStore(b: seq<Instr>, from: nat, i: nat, exit: nat)
    requires Careful(b, from, exit) && from <= i < |b| && !(b[i].Store? && b[i].slot == 0)
    ensures Harmless(b[i])
  {
  }

  lemma HarmlessKeeps(env: Env, args: seq<int>, i: Instr, m: MState)
    requires Harmless(i) && 0 in m.mem && ExecInstr(env, args, i, m).Live?
    ensures var m' := ExecInstr(env, args, i, m).m;
            && 0 in m'.mem && m'.mem[0] == m.mem[0]
            && ((m'.blk == m.blk && m'.pc == m.pc + 1) || (m'.blk != 0 && m'.pc == 0))
  {
    hide OperandValue, OperandValues, ApplyBin, ApplyCmp, ApplyCast, Wrap;
  }

  lemma ReturnsZero(code: Blocks, ret: Ty, env: Env, args: seq<int>, m: MState, r: Option<int>, t': seq<Event>)
    requires ReturnCode(code, ret, true) && HoldsZero(code, ret, m) && WellFormed.OneExit(code, 1)
    requires Step(code, env, args, Live(m)) == Done(Returned(r), t')
    ensures r == Some(0)
  {
    hide ReturnCode;
    OnlyRetReturns(code, env, args, m, r, t');
    AtExit(code, ret, env, args, m, r, t');
  }

  lemma OnlyRetReturns(code: Blocks, env: Env, args: seq<int>, m: MState, r: Option<int>, t': seq<Event>)
    requires Step(code, env, args, Live(m)) == Done(Returned(r), t')
    ensures m.blk < |code| && m.pc < |code[m.blk]| && (code[m.blk][m.pc].Ret? || code[m.blk][m.pc].RetVoid?)
  {
    hide OperandValue, OperandValues, ApplyBin, ApplyCmp, ApplyCast, Wrap;
  }

  lemma AtExit(code: Blocks, ret: Ty, env: Env, args: seq<int>, m: MState, r: Option<int>, t': seq<Event>)
    requires ReturnCode(code, ret, true) && HoldsZero(code, ret, m) && WellFormed.OneExit(code, 1)
    requires m.blk < |code| && m.pc < |code[m.blk]| && (code[m.blk][m.pc].Ret? || code[m.blk][m.pc].RetVoid?)
    requires Step(code, env, args, Live(m)) == Done(Returned(r), t')
    ensures r == Some(0)
  {
    assert m.blk == 1 && m.pc == 1;
  }

  predicate StoresAt(code: Blocks, env: Env, args: seq<int>, t: seq<Event>, j: nat) {
    After(code, env, args, t, j).Live? && AtReturnStore(code, true, After(code, env, args, t, j).m)
  }

  lemma {:induction false} ZeroUntilStored(code: Blocks, ret: Ty, env: Env, args: seq<int>, t: seq<Event>, k: nat)
    requires ReturnCode(code, ret, true) && WellFormed.OneExit(code, 1)
    requires forall j: nat | j < k :: !StoresAt(code, env, args, t, j)
    ensures match After(code, env, args, t, k)
            case Live(m) => HoldsZero(code, ret, m)
            case Done(Returned(r), _) => r == Some(0)
            case _ => true
    decreases k
  {
    hide ReturnCode, HoldsZero, Step, Run, WellFormed.OneExit, AtReturnStore;
    if k == 0 {
      ZeroAtStart(code, ret, env, args, t);
    } else {
      OneMore(code, env, args, t, k - 1);
      ZeroUntilStored(code, ret, env, args, t, k - 1);
      var c := After(code, env, args, t, k - 1);
      assert !StoresAt(code, env, args, t, k - 1);
      match c
      case Done(_, _) => StepOfDone(code, env, args, c);
      case Live(m) => ZeroStep(code, ret, env, args, m);
    }
  }

  lemma ZeroAtStart(code: Blocks, ret: Ty, env: Env, args: seq<int>, t: seq<Event>)
    requires ReturnCode(code, ret, true)
    ensures After(code, env, args, t, 0) == Live(Entry(t)) && HoldsZero(code, ret, Entry(t))
  {
  }

  lemma ZeroStep(code: Blocks, ret: Ty, env: Env, args: seq<int>, m: MState)
    requires ReturnCode(code, ret, true) && WellFormed.OneExit(code, 1) && HoldsZero(code, ret, m) && !AtReturnStore(code, true, m)
    ensures match Step(code, env, args, Live(m))
            case Live(m') => HoldsZero(code, ret, m')
            case Done(Returned(r), _) => r == Some(0)
            case _ => true
  {
    hide ReturnCode, HoldsZero, Step, WellFormed.OneExit, AtReturnStore;
    match Step(code, env, args, Live(m))
    case Live(m') =>
      if m.blk == 0 && m.pc < 3 {
        SetupKeepsZero(code, ret, env, args, m, m');
      } else {
        RunKeepsZero(code, ret, env, args, m, m');
      }
    case Done(Returned(r), t') => ReturnsZero(code, ret, env, args, m, r, t');
    case _ =>
  }

  /** When the entry point finishes, its result is what the one return that stored gave it,
      or zero when none did. */
  lemma EntryPointResult(sigs: Sigs, env: Env, f: Function, gf: Gen, args: seq<int>, t: seq<Event>,
                         k: nat, r: Option<int>, t': seq<Event>)
    requires GenFunction(sigs, f) == Ok(gf) && !IRType(f.ret).Void? && f.name == ""
    requires Run(gf.blocks, env, args, Live(Entry(t)), k) == Done(Returned(r), t')
    ensures (forall j: nat | j < k :: !StoresAt(gf.blocks, env, args, t, j)) ==> r == Some(0)
    ensures forall j: nat | j < k && StoresAt(gf.blocks, env, args, t, j) ::
              var m := After(gf.blocks, env, args, t, j).m;
              r.Some? && OperandValue(args, m, gf.blocks[m.blk][m.pc].v) == r && t' == m.trace
  {
    hide Run, GenFunction, ReturnCode, WellFormed.OneExit;
    CodeReturns(sigs, f, gf);
    WellFormed.CodeIsWellFormed(sigs, f, gf);
    if forall j: nat | j < k :: !StoresAt(gf.blocks, env, args, t, j) {
      ZeroUntilStored(gf.blocks, IRType(f.ret), env, args, t, k);
    }
    forall j: nat | j < k && StoresAt(gf.blocks, env, args, t, j)
      ensures var m := After(gf.blocks, env, args, t, j).m;
              r.Some? && OperandValue(args, m, gf.blocks[m.blk][m.pc].v) == r && t' == m.trace
    {
      var m := After(gf.blocks, env, args, t, j).m;
      ReturnEndsTheRun(sigs, env, f, gf, args, t, j, m);
      HaltsOneWay(gf.blocks, env, args, Live(Entry(t)), j + 4, k);
    }
  }
}
