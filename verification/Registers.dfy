/** Registers in the generated code: each is set by one instruction only, and used only
    after that instruction in the same block.  Arguments are those the function has. */
module Registers {
  import opened Ast
  import opened IR
  import opened Typing
  import opened Codegen

  // ----- what an instruction uses and sets -----

  function Operands(i: Instr): seq<Operand> {
    match i
    case Store(v, _) => [v]
    case Bin(_, _, a, b) => [a, b]
    case Cmp(_, _, a, b) => [a, b]
    case Cast(_, _, a, _) => [a]
    case CallFn(_, _, _, args) => args
    case CallPrint(_, v) => [v]
    case CondBr(c, _, _) => [c]
    case Ret(v) => [v]
    case _ => []
  }

  function Sets(i: Instr): set<nat> {
    match i
    case Load(d, _, _) => {d}
    case Bin(d, _, _, _) => {d}
    case Cmp(d, _, _, _) => {d}
    case Cast(d, _, _, _) => {d}
    case CallFn(d, _, _, _) => {d}
    case _ => {}
  }

  /** The registers a piece of straight-line code has set at its end. */
  function Known(b: seq<Instr>): set<nat> {
    if b == [] then {} else Known(b[..|b| - 1]) + Sets(b[|b| - 1])
  }

  /** The operand has a value when the registers `known` are set and there are `n` arguments. */
  predicate Fine(v: Operand, known: set<nat>, n: nat) {
    match v
    case Const(_, _) => true
    case Arg(_, i) => i < n
    case Reg(_, r) => r in known
  }

  predicate AllFine(vs: seq<Operand>, known: set<nat>, n: nat) { forall v | v in vs :: Fine(v, known, n) }

  /** Every operand has a value when it is used. */
  predicate Ordered(b: seq<Instr>, n: nat) {
    b == [] || (Ordered(b[..|b| - 1], n) && AllFine(Operands(b[|b| - 1]), Known(b[..|b| - 1]), n))
  }

  predicate AllOrdered(blocks: Blocks, n: nat) { forall b | 0 <= b < |blocks| :: Ordered(blocks[b], n) }

  /** All registers set so far come before the next one. */
  predicate Below(blocks: Blocks, next: nat) {
    forall b, i, r | 0 <= b < |blocks| && 0 <= i < |blocks[b]| && r in Sets(blocks[b][i]) :: r < next
  }

  /** No two instructions set the same register. */
  predicate SetOnce(blocks: Blocks) {
    forall b, i, c, j, r |
      0 <= b < |blocks| && 0 <= i < |blocks[b]| && 0 <= c < |blocks| && 0 <= j < |blocks[c]| &&
      r in Sets(blocks[b][i]) && r in Sets(blocks[c][j]) ::
      b == c && i == j
  }

  predicate Registered(g: Gen, n: nat) {
    Ready(g) && AllOrdered(g.blocks, n) && Below(g.blocks, g.nextReg) && SetOnce(g.blocks)
  }

  /** The registers set in the current block. */
  function Here(g: Gen): set<nat>
    requires Ready(g)
  {
    Known(g.blocks[g.cur])
  }

  // ----- steps of the builder -----

  lemma EmitAny(g: Gen, i: Instr, next: nat, n: nat)
    requires Registered(g, n) && AllFine(Operands(i), Here(g), n)
    requires Sets(i) == {} || Sets(i) == {g.nextReg}
    requires g.nextReg <= next && forall r | r in Sets(i) :: r < next
    ensures Registered(Emit(g, i).(nextReg := next), n) && Here(Emit(g, i)) == Here(g) + Sets(i)
  {
    hide Sets, AllOrdered, Below, SetOnce, Known;
    EmitOrdered(g, i, n);
    EmitBelow(g, i, next);
    EmitOnce(g, i);
  }

  lemma EmitOrdered(g: Gen, i: Instr, n: nat)
    requires Ready(g) && AllOrdered(g.blocks, n) && AllFine(Operands(i), Here(g), n)
    ensures AllOrdered(Emit(g, i).blocks, n) && Here(Emit(g, i)) == Here(g) + Sets(i)
  {
    hide Sets, Operands, AllFine;
    var b, b' := g.blocks[g.cur], g.blocks[g.cur] + [i];
    assert b'[..|b'| - 1] == b;
  }

  lemma EmitBelow(g: Gen, i: Instr, next: nat)
    requires Ready(g) && Below(g.blocks, g.nextReg) && g.nextReg <= next && forall r | r in Sets(i) :: r < next
    ensures Below(Emit(g, i).blocks, next)
  {
    hide Sets;
  }

  lemma EmitOnce(g: Gen, i: Instr)
    requires Ready(g) && Below(g.blocks, g.nextReg) && SetOnce(g.blocks) && (Sets(i) == {} || Sets(i) == {g.nextReg})
    ensures SetOnce(Emit(g, i).blocks)
  {
    var bs, now := g.blocks, Emit(g, i).blocks;
    forall b, k, c, j, r |
      0 <= b < |now| && 0 <= k < |now[b]| && 0 <= c < |now| && 0 <= j < |now[c]| && r in Sets(now[b][k]) && r in Sets(now[c][j])
      ensures b == c && k == j
    {
      assert k < |bs[b]| ==> now[b][k] == bs[b][k];
      assert j < |bs[c]| ==> now[c][j] == bs[c][j];
    }
  }

  lemma EmitRegistered(g: Gen, i: Instr, n: nat)
    requires Registered(g, n) && AllFine(Operands(i), Here(g), n) && Sets(i) == {}
    ensures Registered(Emit(g, i), n) && Here(Emit(g, i)) == Here(g)
  {
    hide Registered, Known, Sets;
    Basics(g, n);
    EmitAny(g, i, g.nextReg, n);
    assert Emit(g, i).(nextReg := g.nextReg) == Emit(g, i);
  }

  lemma DefineRegistered(g: Gen, i: Instr, n: nat)
    requires Registered(g, n) && AllFine(Operands(i), Here(g), n) && Sets(i) == {g.nextReg}
    ensures Registered(Define(g, i), n) && Here(Define(g, i)) == Here(g) + {g.nextReg}
  {
    hide Registered, Known, Sets;
    Basics(g, n);
    EmitAny(g, i, g.nextReg + 1, n);
  }

  lemma Basics(g: Gen, n: nat)
    requires Registered(g, n)
    ensures Ready(g)
  {
  }

  lemma CreateRegistered(g: Gen, n: nat)
    requires Registered(g, n)
    ensures Registered(CreateBlock(g), n) && Registered(NewBlock(g), n)
  {
    assert Ordered([], n);
  }

  /** Neither scopes nor slots matter, nor where generation goes on. */
  lemma SameRegistered(g: Gen, g': Gen, n: nat)
    requires Registered(g, n) && g'.blocks == g.blocks && g'.nextReg == g.nextReg && Ready(g')
    ensures Registered(g', n)
  {
  }

  lemma BranchRegistered(g: Gen, b: nat, n: nat)
    requires Registered(g, n) && b < |g.blocks|
    ensures Registered(BranchTo(g, b), n)
  {
    hide Registered;
    Basics(g, n);
    EmitRegistered(g, Br(b), n);
    SameRegistered(Emit(g, Br(b)), BranchTo(g, b), n);
  }

  lemma SlotRegistered(g: Gen, ty: Ty, n: nat)
    requires Registered(g, n)
    ensures Registered(NewSlot(g, ty), n) && Here(NewSlot(g, ty)) == Here(g)
  {
    hide Registered, Known;
    Basics(g, n);
    EmitRegistered(g, Alloca(g.nextSlot, ty), n);
    SameRegistered(Emit(g, Alloca(g.nextSlot, ty)), NewSlot(g, ty), n);
  }

  /** Ends the current block and goes on in one created earlier. */
  lemma CloseRegistered(g: Gen, i: Instr, b: nat, n: nat)
    requires Registered(g, n) && AllFine(Operands(i), Here(g), n) && Sets(i) == {} && b < |g.blocks|
    ensures Registered(InsertBlock(Emit(g, i), b).(cur := b), n)
  {
    hide Registered, Known, Sets, Operands;
    Basics(g, n);
    EmitRegistered(g, i, n);
    SameRegistered(Emit(g, i), InsertBlock(Emit(g, i), b).(cur := b), n);
  }

  // ----- expressions -----

  /** From `g` to `g'`, in the same block, and then the operand has a value. */
  predicate Yields(g: Gen, g': Gen, v: Operand, n: nat)
    requires Ready(g)
  {
    Registered(g', n) && Here(g) <= Here(g') && Fine(v, Here(g'), n)
  }

  lemma FineLater(v: Operand, a: set<nat>, b: set<nat>, n: nat)
    requires Fine(v, a, n) && a <= b
    ensures Fine(v, b, n)
  {
  }

  lemma EnsureTypeYields(g: Gen, v: Operand, ty: Ty, fail: CgError, n: nat)
    requires Registered(g, n) && Fine(v, Here(g), n) && EnsureType(g, v, ty, fail).Ok?
    ensures var (g', o) := EnsureType(g, v, ty, fail).value; Yields(g, g', o, n)
  {
    hide Registered, Known;
    Basics(g, n);
    forall kind: CastKind
      ensures Yields(g, Define(g, Cast(g.nextReg, kind, v, ty)), Reg(ty, g.nextReg), n)
    {
      DefineRegistered(g, Cast(g.nextReg, kind, v, ty), n);
    }
  }

  lemma TruthinessYields(g: Gen, v: Val, n: nat)
    requires Registered(g, n) && Fine(v.op, Here(g), n) && Truthiness(g, v).Ok?
    ensures var (g', o) := Truthiness(g, v).value; Yields(g, g', o, n)
  {
    hide Registered, Known, EnsureType;
    Basics(g, n);
    if !v.cmp {
      EnsureTypeYields(g, Const(I64, 0), v.op.ty, InternalError, n);
      var (g1, zero) := EnsureType(g, Const(I64, 0), v.op.ty, InternalError).value;
      FineLater(v.op, Here(g), Here(g1), n);
      DefineRegistered(g1, Cmp(g1.nextReg, INE, v.op, zero), n);
    }
  }

  lemma OpYields(g: Gen, op: Op, ty: Ty, a: Operand, b: Operand, n: nat)
    requires Registered(g, n) && Fine(a, Here(g), n) && Fine(b, Here(g), n) && GenOp(g, op, ty, a, b).Ok?
    ensures var (g', v) := GenOp(g, op, ty, a, b).value; Yields(g, g', v.op, n)
  {
    hide Registered, Known;
    Basics(g, n);
    forall o: BinOp
      ensures Yields(g, Define(g, Bin(g.nextReg, o, a, b)), Reg(ty, g.nextReg), n)
    {
      DefineRegistered(g, Bin(g.nextReg, o, a, b), n);
    }
    forall p: Pred
      ensures Yields(g, Define(g, Cmp(g.nextReg, p, a, b)), Reg(I1, g.nextReg), n)
    {
      DefineRegistered(g, Cmp(g.nextReg, p, a, b), n);
    }
  }

  lemma OperationYields(g: Gen, op: Op, ty: Ty, l: Operand, r: Operand, n: nat)
    requires Registered(g, n) && Fine(l, Here(g), n) && Fine(r, Here(g), n) && GenOperation(g, op, ty, l, r).Ok?
    ensures var (g', v) := GenOperation(g, op, ty, l, r).value; Yields(g, g', v.op, n)
  {
    hide Registered, Known, EnsureType, GenOp;
    Basics(g, n);
    EnsureTypeYields(g, l, ty, InternalError, n);
    var (g1, a) := EnsureType(g, l, ty, InternalError).value;
    FineLater(r, Here(g), Here(g1), n);
    EnsureTypeYields(g1, r, ty, InternalError, n);
    var (g2, b) := EnsureType(g1, r, ty, InternalError).value;
    FineLater(a, Here(g1), Here(g2), n);
    OpYields(g2, op, ty, a, b, n);
  }

  lemma {:induction false} ExprYields(sigs: Sigs, g: Gen, e: Expr, n: nat)
    requires Registered(g, n) && GenExpr(sigs, g, e).Ok?
    ensures var (g', v) := GenExpr(sigs, g, e).value; Yields(g, g', v.op, n)
    decreases e
  {
    hide Registered, Known, GenOperation;
    Basics(g, n);
    match e
    case Identifier(x) =>
      var b := g.scopes[Level(g.scopes, x).value][x];
      DefineRegistered(g, Load(g.nextReg, b.ty, b.val), n);
    case Binary(op, l, r, _) =>
      ExprYields(sigs, g, l, n);
      var (g1, lv) := GenExpr(sigs, g, l).value;
      ExprYields(sigs, g1, r, n);
      var (g2, rv) := GenExpr(sigs, g1, r).value;
      FineLater(lv.op, Here(g1), Here(g2), n);
      OperationYields(g2, op, CalcType(sigs, g2.scopes, e).value, lv.op, rv.op, n);
    case Call(fn, args) =>
      ArgsYield(sigs, g, args, sigs[fn].params, n);
      var (g1, ops) := GenArgs(sigs, g, args, sigs[fn].params).value;
      DefineRegistered(g1, CallFn(g1.nextReg, fn, sigs[fn].ret, ops), n);
    case _ =>
  }

  lemma {:induction false} ArgsYield(sigs: Sigs, g: Gen, args: seq<Expr>, params: seq<Ty>, n: nat)
    requires Registered(g, n) && GenArgs(sigs, g, args, params).Ok?
    ensures var (g', os) := GenArgs(sigs, g, args, params).value;
            Registered(g', n) && Here(g) <= Here(g') && AllFine(os, Here(g'), n)
    decreases args
  {
    hide Registered, Known, EnsureType, GenExpr;
    Basics(g, n);
    if args != [] {
      ExprYields(sigs, g, args[0], n);
      var (g1, v) := GenExpr(sigs, g, args[0]).value;
      EnsureTypeYields(g1, v.op, params[0], CannotPass, n);
      var (g2, o) := EnsureType(g1, v.op, params[0], CannotPass).value;
      ArgsYield(sigs, g2, args[1..], params[1..], n);
      var (g3, os) := GenArgs(sigs, g2, args[1..], params[1..]).value;
      FineLater(o, Here(g2), Here(g3), n);
    }
  }

  lemma ConditionYields(sigs: Sigs, g: Gen, e: Expr, n: nat)
    requires Registered(g, n) && GenCondition(sigs, g, e).Ok?
    ensures var (g', o) := GenCondition(sigs, g, e).value; Yields(g, g', o, n)
  {
    hide Registered, Known, GenExpr, Truthiness;
    Basics(g, n);
    ExprYields(sigs, g, e, n);
    var (g1, v) := GenExpr(sigs, g, e).value;
    TruthinessYields(g1, v, n);
  }

  // ----- statements -----

  /** A value converted and stored. */
  lemma StoreRegistered(g: Gen, v: Operand, ty: Ty, fail: CgError, slot: nat, n: nat)
    requires Registered(g, n) && Fine(v, Here(g), n) && EnsureType(g, v, ty, fail).Ok?
    ensures var (g1, o) := EnsureType(g, v, ty, fail).value; Registered(Emit(g1, Store(o, slot)), n)
  {
    hide Registered, Known, EnsureType;
    Basics(g, n);
    EnsureTypeYields(g, v, ty, fail, n);
    var (g1, o) := EnsureType(g, v, ty, fail).value;
    EmitRegistered(g1, Store(o, slot), n);
  }

  lemma VardeclRegistered(sigs: Sigs, g: Gen, x: string, ty: Ty, init: Option<Expr>, n: nat)
    requires Registered(g, n) && GenVardecl(sigs, g, x, ty, init).Ok?
    ensures Registered(GenVardecl(sigs, g, x, ty, init).value, n)
  {
    hide Registered, Known, GenExpr, EnsureType;
    Basics(g, n);
    var g2 := NewSlot(g, ty).(scopes := Bind(g.scopes, x, Binding(ty, g.nextSlot)));
    SlotRegistered(g, ty, n);
    SameRegistered(NewSlot(g, ty), g2, n);
    if init.Some? {
      ExprYields(sigs, g2, init.value, n);
      var (g3, v) := GenExpr(sigs, g2, init.value).value;
      StoreRegistered(g3, v.op, ty, CannotInitialize, g.nextSlot, n);
    }
  }

  lemma ReturnRegistered(sigs: Sigs, g: Gen, value: Option<Expr>, n: nat)
    requires Registered(g, n) && GenReturn(sigs, g, value).Ok?
    ensures Registered(GenReturn(sigs, g, value).value, n)
  {
    hide Registered, Known, GenExpr, EnsureType;
    Basics(g, n);
    match value
    case None => LeaveRegistered(g, n);
    case Some(e) =>
      ExprYields(sigs, g, e, n);
      var (g1, v) := GenExpr(sigs, g, e).value;
      var b := g.result.value;
      StoreRegistered(g1, v.op, b.ty, CannotReturn, b.val, n);
      var (g2, o) := EnsureType(g1, v.op, b.ty, CannotReturn).value;
      LeaveRegistered(Emit(g2, Store(o, b.val)), n);
  }

  lemma LeaveRegistered(g: Gen, n: nat)
    requires Registered(g, n)
    ensures Registered(Emit(NewBlock(Emit(g, Br(g.exit))).(cur := |g.blocks|), Unreachable), n)
  {
    hide Registered, Known;
    Basics(g, n);
    EmitRegistered(g, Br(g.exit), n);
    CreateRegistered(Emit(g, Br(g.exit)), n);
    var g2 := NewBlock(Emit(g, Br(g.exit)));
    SameRegistered(g2, g2.(cur := |g.blocks|), n);
    EmitRegistered(g2.(cur := |g.blocks|), Unreachable, n);
  }

  lemma AssignRegistered(sigs: Sigs, g: Gen, x: string, e: Expr, n: nat)
    requires Registered(g, n) && GenAssign(sigs, g, x, e).Ok?
    ensures Registered(GenAssign(sigs, g, x, e).value, n)
  {
    hide Registered, Known, GenExpr, EnsureType;
    Basics(g, n);
    ExprYields(sigs, g, e, n);
    var (g1, v) := GenExpr(sigs, g, e).value;
    var b := g1.scopes[Level(g1.scopes, x).value][x];
    StoreRegistered(g1, v.op, b.ty, CannotAssign, b.val, n);
  }

  lemma InputRegistered(g: Gen, x: string, n: nat)
    requires Registered(g, n) && GenInput(g, x).Ok?
    ensures Registered(GenInput(g, x).value, n)
  {
    hide Registered, Known, Truthiness;
    Basics(g, n);
    var b := g.scopes[Level(g.scopes, x).value][x];
    if b.ty != I1 {
      EmitRegistered(g, CallScan(b.ty, b.val), n);
    } else {
      SlotRegistered(g, I32, n);
      EmitRegistered(NewSlot(g, I32), CallScan(I1, g.nextSlot), n);
      var g1 := Emit(NewSlot(g, I32), CallScan(I1, g.nextSlot));
      DefineRegistered(g1, Load(g1.nextReg, I1, g.nextSlot), n);
      var g2 := Define(g1, Load(g1.nextReg, I1, g.nextSlot));
      TruthinessYields(g2, Val(Reg(I1, g1.nextReg), false), n);
      var (g3, o) := Truthiness(g2, Val(Reg(I1, g1.nextReg), false)).value;
      EmitRegistered(g3, Store(o, b.val), n);
    }
  }

  lemma PrintRegistered(sigs: Sigs, g: Gen, e: Expr, n: nat)
    requires Registered(g, n) && GenPrint(sigs, g, e).Ok?
    ensures Registered(GenPrint(sigs, g, e).value, n)
  {
    hide Registered, Known, GenExpr;
    Basics(g, n);
    ExprYields(sigs, g, e, n);
    var (g1, v) := GenExpr(sigs, g, e).value;
    var ty, d := v.op.ty, g1.nextReg;
    if ty.IsInt() && ty.Bits() < 32 {
      DefineRegistered(g1, Cast(d, ZExt, v.op, I32), n);
      EmitRegistered(Define(g1, Cast(d, ZExt, v.op, I32)), CallPrint(ty, Reg(I32, d)), n);
    } else if ty.F32? {
      DefineRegistered(g1, Cast(d, FPCast, v.op, F64), n);
      EmitRegistered(Define(g1, Cast(d, FPCast, v.op, F64)), CallPrint(ty, Reg(F64, d)), n);
    } else {
      EmitRegistered(g1, CallPrint(ty, v.op), n);
    }
  }

  lemma AssertRegistered(sigs: Sigs, g: Gen, e: Expr, n: nat)
    requires Registered(g, n) && GenAssert(sigs, g, e).Ok?
    ensures Registered(GenAssert(sigs, g, e).value, n)
  {
    hide Registered, Known, GenCondition;
    Basics(g, n);
    var k, g0 := |g.blocks|, NewBlock(NewBlock(NewBlock(g)));
    CreateRegistered(g, n);
    CreateRegistered(NewBlock(g), n);
    CreateRegistered(NewBlock(NewBlock(g)), n);
    BranchRegistered(g0, k, n);
    var g1 := BranchTo(g0, k);
    ConditionYields(sigs, g1, e, n);
    var (g2, c) := GenCondition(sigs, g1, e).value;
    EmitRegistered(g2, CondBr(c, k + 2, k + 1), n);
    var g3 := Emit(g2, CondBr(c, k + 2, k + 1));
    SameRegistered(g3, g3.(cur := k + 1), n);
    EmitRegistered(g3.(cur := k + 1), CallAbort, n);
    BranchRegistered(Emit(g3.(cur := k + 1), CallAbort), k + 2, n);
  }

  lemma {:induction false} StmtRegistered(sigs: Sigs, g: Gen, s: Stmt, n: nat)
    requires Registered(g, n) && GenStmt(sigs, g, s).Ok?
    ensures Registered(GenStmt(sigs, g, s).value, n)
    decreases s, 2
  {
    hide Registered;
    Basics(g, n);
    match s
    case Assert(e) => AssertRegistered(sigs, g, e, n);
    case Input(x) => InputRegistered(g, x, n);
    case Abort => EmitRegistered(g, CallAbort, n);
    case Vardecl(x, t, init) => VardeclRegistered(sigs, g, x, IRType(t), init, n);
    case Return(v) => ReturnRegistered(sigs, g, v, n);
    case Print(e) => PrintRegistered(sigs, g, e, n);
    case Assign(x, e) => AssignRegistered(sigs, g, x, e, n);
    case ExprStmt(e) => ExprYields(sigs, g, e, n);
    case Loop(_, _) => LoopRegistered(sigs, g, s, n);
    case Branch(_, _, _) => BranchStmtRegistered(sigs, g, s, n);
  }

  lemma {:induction false} StmtsRegistered(sigs: Sigs, g: Gen, body: seq<Stmt>, n: nat)
    requires Registered(g, n) && GenStmts(sigs, g, body).Ok?
    ensures Registered(GenStmts(sigs, g, body).value, n)
    decreases body
  {
    hide Registered, GenStmt;
    Basics(g, n);
    if body != [] {
      StmtRegistered(sigs, g, body[0], n);
      StmtsRegistered(sigs, GenStmt(sigs, g, body[0]).value, body[1..], n);
    }
  }

  lemma {:induction false} LoopRegistered(sigs: Sigs, g: Gen, s: Stmt, n: nat)
    requires Registered(g, n) && s.Loop? && GenLoop(sigs, g, s).Ok?
    ensures Registered(GenLoop(sigs, g, s).value, n)
    decreases s, 1
  {
    hide Registered, Known, GenStmts, GenCondition;
    Basics(g, n);
    var head := |g.blocks|;
    CreateRegistered(g, n);
    BranchRegistered(NewBlock(g), head, n);
    var g1 := EnterScope(BranchTo(NewBlock(g), head));
    SameRegistered(BranchTo(NewBlock(g), head), g1, n);
    StmtsRegistered(sigs, g1, s.body, n);
    var g2 := GenStmts(sigs, g1, s.body).value;
    Basics(g2, n);
    SameRegistered(g2, LeaveScope(g2), n);
    var test, ga := |g2.blocks|, NewBlock(LeaveScope(g2));
    CreateRegistered(LeaveScope(g2), n);
    CreateRegistered(ga, n);
    BranchRegistered(CreateBlock(ga), test, n);
    var g3 := BranchTo(CreateBlock(ga), test);
    ConditionYields(sigs, g3, s.cond, n);
    var (g4, c) := GenCondition(sigs, g3, s.cond).value;
    CloseRegistered(g4, CondBr(c, head, test + 1), test + 1, n);
  }

  lemma {:induction false} BranchStmtRegistered(sigs: Sigs, g: Gen, s: Stmt, n: nat)
    requires Registered(g, n) && s.Branch? && GenBranch(sigs, g, s).Ok?
    ensures Registered(GenBranch(sigs, g, s).value, n)
    decreases s, 1
  {
    hide Registered, Known, GenCases, GenElse;
    Basics(g, n);
    var k := |g.blocks|;
    CreateRegistered(g, n);
    CreateRegistered(NewBlock(g), n);
    BranchRegistered(CreateBlock(NewBlock(g)), k, n);
    CreateRegistered(BranchTo(CreateBlock(NewBlock(g)), k), n);
    var g0 := NewBlock(BranchTo(CreateBlock(NewBlock(g)), k));
    BranchRegistered(g0, k + 2, n);
    var g1 := BranchTo(g0, k + 2);
    CasesRegistered(sigs, g1, s.cases, k + 1, n);
    var g2 := GenCases(sigs, g1, s.cases, k + 1).value;
    Basics(g2, n);
    ElseRegistered(sigs, g2, s.els, n);
    CloseRegistered(GenElse(sigs, g2, s.els).value, Br(k + 1), k + 1, n);
  }

  lemma {:induction false} ElseRegistered(sigs: Sigs, g: Gen, els: Else, n: nat)
    requires Registered(g, n) && GenElse(sigs, g, els).Ok?
    ensures Registered(GenElse(sigs, g, els).value, n)
    decreases els
  {
    hide Registered, GenStmts;
    Basics(g, n);
    if els.Else? {
      SameRegistered(g, EnterScope(g), n);
      CreateRegistered(EnterScope(g), n);
      BranchRegistered(NewBlock(EnterScope(g)), |g.blocks|, n);
      var g1 := BranchTo(NewBlock(EnterScope(g)), |g.blocks|);
      StmtsRegistered(sigs, g1, els.body, n);
      var g2 := GenStmts(sigs, g1, els.body).value;
      SameRegistered(g2, LeaveScope(g2), n);
    }
  }

  lemma {:induction false} CaseRegistered(sigs: Sigs, g: Gen, c: Case, exit: nat, n: nat)
    requires Registered(g, n) && GenCase(sigs, g, c, exit).Ok?
    ensures Registered(GenCase(sigs, g, c, exit).value, n)
    decreases c
  {
    hide Registered, Known, GenStmts, GenCondition;
    Basics(g, n);
    ConditionYields(sigs, g, c.cond, n);
    var (g1, v) := GenCondition(sigs, g, c.cond).value;
    var next, body := |g1.blocks|, |g1.blocks| + 1;
    CreateRegistered(g1, n);
    CreateRegistered(CreateBlock(g1), n);
    var ga := NewBlock(CreateBlock(g1));
    EmitRegistered(ga, CondBr(v, body, next), n);
    var g2 := Emit(ga, CondBr(v, body, next)).(cur := body);
    SameRegistered(Emit(ga, CondBr(v, body, next)), g2, n);
    StmtsRegistered(sigs, g2, c.body, n);
    CloseRegistered(GenStmts(sigs, g2, c.body).value, Br(exit), next, n);
  }

  lemma {:induction false} CasesRegistered(sigs: Sigs, g: Gen, cases: seq<Case>, exit: nat, n: nat)
    requires Registered(g, n) && GenCases(sigs, g, cases, exit).Ok?
    ensures Registered(GenCases(sigs, g, cases, exit).value, n)
    decreases cases
  {
    hide Registered, GenCase;
    Basics(g, n);
    if cases != [] {
      CaseRegistered(sigs, g, cases[0], exit, n);
      CasesRegistered(sigs, GenCase(sigs, g, cases[0], exit).value, cases[1..], exit, n);
    }
  }

  // ----- functions -----

  lemma {:induction false} ParamsRegistered(g: Gen, params: seq<Param>, index: nat, n: nat)
    requires Registered(g, n) && GenParams(g, params, index).Ok? && index + |params| <= n
    ensures Registered(GenParams(g, params, index).value, n)
    decreases params
  {
    hide Registered, Known;
    Basics(g, n);
    if params != [] {
      var x, ty := params[0].name, IRType(params[0].ty);
      SlotRegistered(g, ty, n);
      EmitRegistered(NewSlot(g, ty), Store(Arg(ty, index), g.nextSlot), n);
      var g1 := Emit(NewSlot(g, ty), Store(Arg(ty, index), g.nextSlot));
      var g2 := g1.(scopes := Bind(g.scopes, x, Binding(ty, g.nextSlot)));
      SameRegistered(g1, g2, n);
      ParamsRegistered(g2, params[1..], index + 1, n);
    }
  }

  lemma ResultRegistered(g: Gen, ret: Ty, entryPoint: bool, n: nat)
    requires Registered(g, n) && GenResult(g, ret, entryPoint).Ok?
    ensures Registered(GenResult(g, ret, entryPoint).value, n)
  {
    hide Registered, Known, EnsureType;
    Basics(g, n);
    if ret.Void? {
      SameRegistered(g, g.(result := None), n);
    } else {
      SlotRegistered(g, ret, n);
      var g1 := NewSlot(g, ret).(result := Some(Binding(ret, g.nextSlot)));
      SameRegistered(NewSlot(g, ret), g1, n);
      if entryPoint {
        StoreRegistered(g1, Const(I64, 0), ret, InternalError, g.nextSlot, n);
      }
    }
  }

  lemma PrologueRegistered(f: Function)
    requires GenPrologue(f).Ok?
    ensures Registered(GenPrologue(f).value, |f.params|)
  {
    hide Registered, GenResult, GenParams;
    var n, g0 := |f.params|, NewBlock(EnterScope(BLANK));
    StartRegistered(n);
    ResultRegistered(g0, IRType(f.ret), f.name == "", n);
    var g1 := GenResult(g0, IRType(f.ret), f.name == "").value;
    ParamsRegistered(g1, f.params, 0, n);
    var g2 := GenParams(g1, f.params, 0).value;
    CreateRegistered(g2, n);
    SameRegistered(CreateBlock(g2), GenPrologue(f).value, n);
  }

  lemma StartRegistered(n: nat)
    ensures Registered(NewBlock(EnterScope(BLANK)), n)
  {
    assert NewBlock(EnterScope(BLANK)).blocks == [[]];
    assert Ordered([], n);
  }

  lemma EpilogueRegistered(g: Gen, n: nat)
    requires Registered(g, n) && g.exit < |g.blocks|
    ensures Registered(GenEpilogue(g), n)
  {
    hide Registered, Known;
    Basics(g, n);
    CloseRegistered(g, Br(g.exit), g.exit, n);
    var g1 := InsertBlock(Emit(g, Br(g.exit)), g.exit).(cur := g.exit);
    match g1.result
    case None => EmitRegistered(g1, RetVoid, n);
    case Some(b) =>
      DefineRegistered(g1, Load(g1.nextReg, b.ty, b.val), n);
      EmitRegistered(Define(g1, Load(g1.nextReg, b.ty, b.val)), Ret(Reg(b.ty, g1.nextReg)), n);
  }

  /** For every function: operands have values where they are used, on whatever path the
      code is reached, and no register is set in two places. */
  lemma CodeRegistered(sigs: Sigs, f: Function, gf: Gen)
    requires GenFunction(sigs, f) == Ok(gf)
    ensures AllOrdered(gf.blocks, |f.params|) && SetOnce(gf.blocks)
  {
    hide GenPrologue, GenStmts, GenEpilogue, Ordered;
    PrologueRegistered(f);
    var g := GenPrologue(f).value;
    StmtsRegistered(sigs, g, f.body, |f.params|);
    EpilogueRegistered(GenStmts(sigs, g, f.body).value, |f.params|);
  }

  // ----- in plain words -----

  predicate SetBefore(b: seq<Instr>, i: nat, r: nat)
    requires i <= |b|
  {
    exists j :: 0 <= j < i && r in Sets(b[j])
  }

  /** Every register an instruction uses is set by an earlier instruction of its block. */
  predicate UsesAreSet(blocks: Blocks) {
    forall b, i, v | 0 <= b < |blocks| && 0 <= i < |blocks[b]| && v in Operands(blocks[b][i]) && v.Reg? ::
      SetBefore(blocks[b], i, v.r)
  }

  lemma {:induction false} KnownIsSet(b: seq<Instr>, r: nat)
    requires r in Known(b)
    ensures SetBefore(b, |b|, r)
    decreases b
  {
    if r !in Sets(b[|b| - 1]) {
      KnownIsSet(b[..|b| - 1], r);
      var j :| 0 <= j < |b| - 1 && r in Sets(b[..|b| - 1][j]);
      assert r in Sets(b[j]);
    }
  }

  lemma {:induction false} OrderedAt(b: seq<Instr>, i: nat, n: nat)
    requires Ordered(b, n) && i < |b|
    ensures AllFine(Operands(b[i]), Known(b[..i]), n)
    decreases b
  {
    if i < |b| - 1 {
      OrderedAt(b[..|b| - 1], i, n);
      assert b[..|b| - 1][..i] == b[..i];
    }
  }

  lemma UsesSet(blocks: Blocks, n: nat)
    requires AllOrdered(blocks, n)
    ensures UsesAreSet(blocks)
  {
    hide Known, Ordered;
    forall b, i, v | 0 <= b < |blocks| && 0 <= i < |blocks[b]| && v in Operands(blocks[b][i]) && v.Reg?
      ensures SetBefore(blocks[b], i, v.r)
    {
      OrderedAt(blocks[b], i, n);
      KnownIsSet(blocks[b][..i], v.r);
      var j :| 0 <= j < i && v.r in Sets(blocks[b][..i][j]);
      assert v.r in Sets(blocks[b][j]);
    }
  }
}
