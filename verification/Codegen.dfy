/** What the IR generator computes, as a function of its state: the specification
    that the class in IRGenerator.dfy refines and the theorems are about. */
module Codegen {
  import opened Ast
  import opened IR
  import opened Typing

  /** The function under construction and the generator's own fields.  A block gets its
      id when it is created; `layout` lists the blocks in the order they are inserted. */
  datatype Gen = Gen(
    blocks: Blocks, layout: seq<nat>, cur: nat,
    nextReg: nat, nextSlot: nat,
    scopes: Scopes<nat>, exit: nat, result: Option<Binding<nat>>)

  /** A generated value; `cmp` tells whether it is a comparison instruction. */
  datatype Val = Val(op: Operand, cmp: bool)

  predicate Ready(g: Gen) { g.cur < |g.blocks| }

  /** From `g` to `g'` only straight-line code was added, all of it to the current block. */
  predicate Appends(g: Gen, g': Gen)
    requires Ready(g)
  {
    && |g.blocks| == |g'.blocks|
    && g' == g.(blocks := g.blocks[g.cur := g'.blocks[g.cur]], nextReg := g'.nextReg)
    && g.blocks[g.cur] <= g'.blocks[g.cur]
    && g.nextReg <= g'.nextReg
    && forall k | |g.blocks[g.cur]| <= k < |g'.blocks[g.cur]| :: !g'.blocks[g.cur][k].IsTerminator()
  }

  /** The operand has the type and was defined before register `next`. */
  predicate Defined(v: Operand, ty: Ty, next: nat) { v.ty == ty && (v.Reg? ==> v.r < next) }

  predicate ValDefined(v: Val, next: nat) { Defined(v.op, v.op.ty, next) && (v.cmp ==> v.op.ty == I1) }

  /** Generation never loses a block and never moves the exit block. */
  predicate Onward(g: Gen, g': Gen) { Ready(g') && |g.blocks| <= |g'.blocks| && g'.exit == g.exit }

  // ----- builder -----

  function Emit(g: Gen, i: Instr): Gen
    requires Ready(g)
  {
    g.(blocks := g.blocks[g.cur := g.blocks[g.cur] + [i]])
  }

  /** Emits an instruction that defines the next register. */
  function Define(g: Gen, i: Instr): Gen
    requires Ready(g)
  {
    Emit(g, i).(nextReg := g.nextReg + 1)
  }

  function CreateBlock(g: Gen): Gen { g.(blocks := g.blocks + [[]]) }

  function InsertBlock(g: Gen, b: nat): Gen { g.(layout := g.layout + [b]) }

  /** Creates a block and inserts it at the end of the function. */
  function NewBlock(g: Gen): Gen { InsertBlock(CreateBlock(g), |g.blocks|) }

  /** Branches to a block and continues there. */
  function BranchTo(g: Gen, b: nat): Gen
    requires Ready(g)
  {
    Emit(g, Br(b)).(cur := b)
  }

  function NewSlot(g: Gen, ty: Ty): Gen
    requires Ready(g)
  {
    Emit(g, Alloca(g.nextSlot, ty)).(nextSlot := g.nextSlot + 1)
  }

  function EnterScope(g: Gen): Gen { g.(scopes := g.scopes + [map[]]) }

  function LeaveScope(g: Gen): Gen { g.(scopes := if g.scopes == [] then [] else g.scopes[..|g.scopes| - 1]) }

  // ----- conversions -----

  function EnsureType(g: Gen, v: Operand, ty: Ty, fail: CgError): (r: Result<(Gen, Operand)>)
    requires Ready(g)
    ensures r.Ok? ==> Appends(g, r.value.0)
    ensures r.Ok? && Defined(v, v.ty, g.nextReg) ==> Defined(r.value.1, ty, r.value.0.nextReg)
    ensures r.Ok? ==> !v.ty.Void? && !ty.Void?
  {
    var d := g.nextReg;
    if v.ty.Ptr? != ty.Ptr? then Err(fail)
    else if v.ty.Ptr? then Ok((g, v))
    else if v.ty.IsInt() && ty.IsInt() then
      if v.ty == ty then Ok((g, v))
      else if v.ty.Bits() < ty.Bits() then Ok((Define(g, Cast(d, SExt, v, ty)), Reg(ty, d)))
      else Ok((Define(g, Cast(d, Trunc, v, ty)), Reg(ty, d)))
    else if v.ty.IsFloat() && ty.IsInt() then Ok((Define(g, Cast(d, FPToSI, v, ty)), Reg(ty, d)))
    else if v.ty.IsInt() && ty.IsFloat() then Ok((Define(g, Cast(d, SIToFP, v, ty)), Reg(ty, d)))
    else if v.ty.IsFloat() && ty.IsFloat() then
      if v.ty == ty then Ok((g, v)) else Ok((Define(g, Cast(d, FPCast, v, ty)), Reg(ty, d)))
    else Err(InternalError)
  }

  function Truthiness(g: Gen, v: Val): (r: Result<(Gen, Operand)>)
    requires Ready(g)
    ensures r.Ok? ==> Appends(g, r.value.0)
  {
    if v.cmp then Ok((g, v.op))
    else if !v.op.ty.IsInt() && !v.op.ty.IsFloat() then Err(NotBoolean)
    else
      var (g1, zero) :- EnsureType(g, Const(I64, 0), v.op.ty, InternalError);
      Ok((Define(g1, Cmp(g1.nextReg, INE, v.op, zero)), Reg(I1, g1.nextReg)))
  }

  function IntBinOp(op: Op): Option<BinOp> {
    match op
    case SHL => Some(Shl)
    case SHR => Some(AShr)
    case PLUS => Some(Add)
    case MINUS => Some(Sub)
    case TIMES => Some(Mul)
    case DIV => Some(SDiv)
    case _ => None
  }

  function IntPred(op: Op): Option<Pred> {
    match op
    case EQ => Some(IEQ)
    case GE => Some(ISGE)
    case GT => Some(ISGT)
    case LE => Some(ISLE)
    case LT => Some(ISLT)
    case _ => None
  }

  function FloatBinOp(op: Op): Option<BinOp> {
    match op
    case PLUS => Some(FAdd)
    case MINUS => Some(FSub)
    case TIMES => Some(FMul)
    case DIV => Some(FDiv)
    case _ => None
  }

  function FloatPred(op: Op): Option<Pred> {
    match op
    case EQ => Some(FOEQ)
    case GE => Some(FOGE)
    case GT => Some(FOGT)
    case LE => Some(FOLE)
    case LT => Some(FOLT)
    case _ => None
  }

  /** The instruction for an operator on two operands of type `ty`. */
  function GenOp(g: Gen, op: Op, ty: Ty, a: Operand, b: Operand): (r: Result<(Gen, Val)>)
    requires Ready(g)
    ensures r.Ok? ==> Appends(g, r.value.0)
    ensures r.Ok? ==> ValDefined(r.value.1, r.value.0.nextReg)
  {
    var d := g.nextReg;
    if ty.IsInt() then (
      match IntBinOp(op)
      case Some(o) => Ok((Define(g, Bin(d, o, a, b)), Val(Reg(ty, d), false)))
      case None =>
        match IntPred(op)
        case Some(p) => Ok((Define(g, Cmp(d, p, a, b)), Val(Reg(I1, d), true)))
        case None => Err(InternalError))
    else if ty.IsFloat() then (
      match FloatBinOp(op)
      case Some(o) => Ok((Define(g, Bin(d, o, a, b)), Val(Reg(ty, d), false)))
      case None =>
        match FloatPred(op)
        case Some(p) => Ok((Define(g, Cmp(d, p, a, b)), Val(Reg(I1, d), true)))
        case None => Err(NotForFloats))
    else Err(InternalError)
  }

  /** Both operands converted to the type of the result, then the operator. */
  function GenOperation(g: Gen, op: Op, ty: Ty, l: Operand, r: Operand): (res: Result<(Gen, Val)>)
    requires Ready(g)
    ensures res.Ok? ==> Appends(g, res.value.0)
    ensures res.Ok? ==> ValDefined(res.value.1, res.value.0.nextReg)
  {
    var (g1, a) :- EnsureType(g, l, ty, InternalError);
    var (g2, b) :- EnsureType(g1, r, ty, InternalError);
    GenOp(g2, op, ty, a, b)
  }

  // ----- expressions -----

  function GenExpr(sigs: Sigs, g: Gen, e: Expr): (r: Result<(Gen, Val)>)
    requires Ready(g)
    ensures r.Ok? ==> Appends(g, r.value.0)
    ensures r.Ok? ==> ValDefined(r.value.1, r.value.0.nextReg)
    decreases e, 1
  {
    match e
    case IntLit(n) => Ok((g, Val(Const(I32, Wrap(I32, n)), false)))
    case FloatLit(b) => Ok((g, Val(Const(F64, b), false)))
    case Identifier(x) =>
      (match Level(g.scopes, x)
       case None => Err(UndefinedVariable)
       case Some(i) =>
         var b := g.scopes[i][x];
         Ok((Define(g, Load(g.nextReg, b.ty, b.val)), Val(Reg(b.ty, g.nextReg), false))))
    case Binary(_, _, _, _) => GenBinary(sigs, g, e)
    case Call(_, _) => GenCall(sigs, g, e)
  }

  function GenBinary(sigs: Sigs, g: Gen, e: Expr): (r: Result<(Gen, Val)>)
    requires Ready(g) && e.Binary?
    ensures r.Ok? ==> Appends(g, r.value.0)
    ensures r.Ok? ==> ValDefined(r.value.1, r.value.0.nextReg)
    decreases e, 0
  {
    var (g1, lv) :- GenExpr(sigs, g, e.left);
    var (g2, rv) :- GenExpr(sigs, g1, e.right);
    if lv.op.ty.Ptr? || rv.op.ty.Ptr? then Err(PointerArithmetic)
    else
      var ty :- CalcType(sigs, g2.scopes, e);
      GenOperation(g2, e.op, ty, lv.op, rv.op)
  }

  function GenCall(sigs: Sigs, g: Gen, e: Expr): (r: Result<(Gen, Val)>)
    requires Ready(g) && e.Call?
    ensures r.Ok? ==> Appends(g, r.value.0)
    ensures r.Ok? ==> ValDefined(r.value.1, r.value.0.nextReg)
    decreases e, 0
  {
    if e.fn !in sigs then Err(UndefinedFunction)
    else
      var sig := sigs[e.fn];
      var (g1, ops) :- GenArgs(sigs, g, e.args, sig.params);
      Ok((Define(g1, CallFn(g1.nextReg, e.fn, sig.ret, ops)), Val(Reg(sig.ret, g1.nextReg), false)))
  }

  function GenArgs(sigs: Sigs, g: Gen, args: seq<Expr>, params: seq<Ty>): (r: Result<(Gen, seq<Operand>)>)
    requires Ready(g)
    ensures r.Ok? ==> Appends(g, r.value.0)
    decreases args
  {
    if args == [] then (if params == [] then Ok((g, [])) else Err(ArgumentCount))
    else
      var (g1, v) :- GenExpr(sigs, g, args[0]);
      if params == [] then Err(ArgumentCount)
      else
        var (g2, o) :- EnsureType(g1, v.op, params[0], CannotPass);
        var (g3, os) :- GenArgs(sigs, g2, args[1..], params[1..]);
        Ok((g3, [o] + os))
  }

  function GenCondition(sigs: Sigs, g: Gen, e: Expr): (r: Result<(Gen, Operand)>)
    requires Ready(g)
    ensures r.Ok? ==> Appends(g, r.value.0)
  {
    var (g1, v) :- GenExpr(sigs, g, e);
    Truthiness(g1, v)
  }

  // ----- statements -----

  function GenVardecl(sigs: Sigs, g: Gen, x: string, ty: Ty, init: Option<Expr>): (r: Result<Gen>)
    requires Ready(g)
    ensures r.Ok? ==> Onward(g, r.value)
  {
    if ty.Void? || g.scopes == [] then Err(InternalError)
    else
      var g1 := NewSlot(g, ty);
      if x in g.scopes[|g.scopes| - 1] then Err(Redefinition)
      else
        var g2 := g1.(scopes := Bind(g.scopes, x, Binding(ty, g.nextSlot)));
        match init
        case None => Ok(g2)
        case Some(e) =>
          var (g3, v) :- GenExpr(sigs, g2, e);
          var (g4, o) :- EnsureType(g3, v.op, ty, CannotInitialize);
          Ok(Emit(g4, Store(o, g.nextSlot)))
  }

  function GenReturn(sigs: Sigs, g: Gen, value: Option<Expr>): (r: Result<Gen>)
    requires Ready(g)
    ensures r.Ok? ==> Onward(g, r.value)
  {
    var g1 :- match value
              case None => Ok(g)
              case Some(e) => (
                var (g1, v) :- GenExpr(sigs, g, e);
                if g.result.None? then Err(InternalError)
                else
                  var (g2, o) :- EnsureType(g1, v.op, g.result.value.ty, CannotReturn);
                  Ok(Emit(g2, Store(o, g.result.value.val))));
    var g2 := NewBlock(Emit(g1, Br(g1.exit)));
    Ok(Emit(g2.(cur := |g1.blocks|), Unreachable))
  }

  function GenAssign(sigs: Sigs, g: Gen, x: string, e: Expr): (r: Result<Gen>)
    requires Ready(g)
    ensures r.Ok? ==> Onward(g, r.value)
  {
    var (g1, v) :- GenExpr(sigs, g, e);
    match Level(g1.scopes, x)
    case None => Err(UndefinedVariable)
    case Some(i) =>
      var b := g1.scopes[i][x];
      var (g2, o) :- EnsureType(g1, v.op, b.ty, CannotAssign);
      Ok(Emit(g2, Store(o, b.val)))
  }

  /** A boolean is read into a temporary of the integer type and loaded back as a boolean. */
  function GenInput(g: Gen, x: string): (r: Result<Gen>)
    requires Ready(g)
    ensures r.Ok? ==> Onward(g, r.value)
  {
    match Level(g.scopes, x)
    case None => Err(UndefinedVariable)
    case Some(i) =>
      var b := g.scopes[i][x];
      if !b.ty.IsInt() && !b.ty.IsFloat() then Err(CannotRead)
      else if b.ty != I1 then Ok(Emit(g, CallScan(b.ty, b.val)))
      else
        var tmp := g.nextSlot;
        var g1 := Emit(NewSlot(g, I32), CallScan(I1, tmp));
        var g2 := Define(g1, Load(g1.nextReg, I1, tmp));
        var (g3, o) :- Truthiness(g2, Val(Reg(I1, g1.nextReg), false));
        Ok(Emit(g3, Store(o, b.val)))
  }

  function GenPrint(sigs: Sigs, g: Gen, e: Expr): (r: Result<Gen>)
    requires Ready(g)
    ensures r.Ok? ==> Onward(g, r.value)
  {
    var (g1, v) :- GenExpr(sigs, g, e);
    var ty, d := v.op.ty, g1.nextReg;
    if !ty.IsInt() && !ty.IsFloat() then Err(CannotPrint)
    else if ty.IsInt() && ty.Bits() < 32 then
      Ok(Emit(Define(g1, Cast(d, ZExt, v.op, I32)), CallPrint(ty, Reg(I32, d))))
    else if ty.F32? then
      Ok(Emit(Define(g1, Cast(d, FPCast, v.op, F64)), CallPrint(ty, Reg(F64, d))))
    else Ok(Emit(g1, CallPrint(ty, v.op)))
  }

  function GenAssert(sigs: Sigs, g: Gen, e: Expr): (r: Result<Gen>)
    requires Ready(g)
    ensures r.Ok? ==> Onward(g, r.value)
  {
    var check, fail, success := |g.blocks|, |g.blocks| + 1, |g.blocks| + 2;
    var g1 := BranchTo(NewBlock(NewBlock(NewBlock(g))), check);
    var (g2, c) :- GenCondition(sigs, g1, e);
    var g3 := Emit(g2, CondBr(c, success, fail));
    Ok(BranchTo(Emit(g3.(cur := fail), CallAbort), success))
  }

  function GenStmt(sigs: Sigs, g: Gen, s: Stmt): (r: Result<Gen>)
    requires Ready(g)
    ensures r.Ok? ==> Onward(g, r.value)
    decreases s, 1
  {
    match s
    case Assert(e) => GenAssert(sigs, g, e)
    case Input(x) => GenInput(g, x)
    case Abort => Ok(Emit(g, CallAbort))
    case Vardecl(x, t, init) => GenVardecl(sigs, g, x, IRType(t), init)
    case Return(v) => GenReturn(sigs, g, v)
    case Print(e) => GenPrint(sigs, g, e)
    case Assign(x, e) => GenAssign(sigs, g, x, e)
    case ExprStmt(e) =>
      var (g1, _) :- GenExpr(sigs, g, e);
      Ok(g1)
    case Loop(_, _) => GenLoop(sigs, g, s)
    case Branch(_, _, _) => GenBranch(sigs, g, s)
  }

  /** The body has a scope of its own; the condition is generated after it is closed. */
  function GenLoop(sigs: Sigs, g: Gen, s: Stmt): (r: Result<Gen>)
    requires Ready(g) && s.Loop?
    ensures r.Ok? ==> Onward(g, r.value)
    decreases s, 0
  {
    var head := |g.blocks|;
    var g1 := EnterScope(BranchTo(NewBlock(g), head));
    var g2 :- GenStmts(sigs, g1, s.body);
    var test, after := |g2.blocks|, |g2.blocks| + 1;
    var g3 := BranchTo(CreateBlock(NewBlock(LeaveScope(g2))), test);
    var (g4, c) :- GenCondition(sigs, g3, s.cond);
    Ok(InsertBlock(Emit(g4, CondBr(c, head, after)), after).(cur := after))
  }

  /** The block after the branch is created first and inserted last. */
  function GenBranch(sigs: Sigs, g: Gen, s: Stmt): (r: Result<Gen>)
    requires Ready(g) && s.Branch?
    ensures r.Ok? ==> Onward(g, r.value)
    decreases s, 0
  {
    var entry, exit := |g.blocks|, |g.blocks| + 1;
    var g1 := NewBlock(BranchTo(CreateBlock(NewBlock(g)), entry));
    var g2 :- GenCases(sigs, BranchTo(g1, exit + 1), s.cases, exit);
    var g3 :- GenElse(sigs, g2, s.els);
    Ok(InsertBlock(Emit(g3, Br(exit)), exit).(cur := exit))
  }

  /** Only the else body, unlike the case bodies, opens a scope. */
  function GenElse(sigs: Sigs, g: Gen, els: Else): (r: Result<Gen>)
    requires Ready(g)
    ensures r.Ok? ==> Onward(g, r.value)
    decreases els
  {
    match els
    case NoElse => Ok(g)
    case Else(body) =>
      var g1 :- GenStmts(sigs, BranchTo(NewBlock(EnterScope(g)), |g.blocks|), body);
      Ok(LeaveScope(g1))
  }

  function GenStmts(sigs: Sigs, g: Gen, body: seq<Stmt>): (r: Result<Gen>)
    requires Ready(g)
    ensures r.Ok? ==> Onward(g, r.value)
    decreases body
  {
    if body == [] then Ok(g)
    else
      var g1 :- GenStmt(sigs, g, body[0]);
      GenStmts(sigs, g1, body[1..])
  }

  /** One case: the condition here, the body in a block of its own, and a block for
      whatever comes after, where generation continues. */
  function GenCase(sigs: Sigs, g: Gen, c: Case, exit: nat): (r: Result<Gen>)
    requires Ready(g)
    ensures r.Ok? ==> Onward(g, r.value)
    decreases c
  {
    var (g1, v) :- GenCondition(sigs, g, c.cond);
    var next, body := |g1.blocks|, |g1.blocks| + 1;
    var g2 := Emit(NewBlock(CreateBlock(g1)), CondBr(v, body, next)).(cur := body);
    var g3 :- GenStmts(sigs, g2, c.body);
    Ok(InsertBlock(Emit(g3, Br(exit)), next).(cur := next))
  }

  function GenCases(sigs: Sigs, g: Gen, cases: seq<Case>, exit: nat): (r: Result<Gen>)
    requires Ready(g)
    ensures r.Ok? ==> Onward(g, r.value)
    decreases cases
  {
    if cases == [] then Ok(g)
    else
      var g1 :- GenCase(sigs, g, cases[0], exit);
      GenCases(sigs, g1, cases[1..], exit)
  }

  // ----- functions -----

  function FunctionName(f: Function): string { if f.name == "" then "main" else f.name }

  function SigOf(f: Function): Sig { Sig(IRType(f.ret), seq(|f.params|, i requires 0 <= i < |f.params| => IRType(f.params[i].ty))) }

  /** Every parameter is copied to a slot of its own in the function's scope. */
  function GenParams(g: Gen, params: seq<Param>, index: nat): (r: Result<Gen>)
    requires Ready(g)
    ensures r.Ok? ==> Onward(g, r.value)
    decreases params
  {
    if params == [] then Ok(g)
    else
      var x, ty := params[0].name, IRType(params[0].ty);
      if ty.Void? || g.scopes == [] || x in g.scopes[|g.scopes| - 1] then Err(InternalError)
      else
        var g1 := Emit(NewSlot(g, ty), Store(Arg(ty, index), g.nextSlot));
        GenParams(g1.(scopes := Bind(g.scopes, x, Binding(ty, g.nextSlot))), params[1..], index + 1)
  }

  /** The result slot; the entry point's starts out as zero. */
  function GenResult(g: Gen, ret: Ty, entryPoint: bool): (r: Result<Gen>)
    requires Ready(g)
    ensures r.Ok? ==> Onward(g, r.value)
  {
    if ret.Void? then Ok(g.(result := None))
    else
      var g1 := NewSlot(g, ret).(result := Some(Binding(ret, g.nextSlot)));
      if !entryPoint then Ok(g1)
      else if !ret.IsInt() then Err(InternalError)
      else
        var (g2, zero) :- EnsureType(g1, Const(I64, 0), ret, InternalError);
        Ok(Emit(g2, Store(zero, g.nextSlot)))
  }

  const BLANK := Gen([], [], 0, 0, 0, [], 0, None)

  /** The code before the body: entry block, result slot, parameters, and the block
      every return goes to. */
  function GenPrologue(f: Function): (r: Result<Gen>)
    ensures r.Ok? ==> Ready(r.value) && r.value.exit < |r.value.blocks|
  {
    var g0 := NewBlock(EnterScope(BLANK));
    var g1 :- GenResult(g0, IRType(f.ret), f.name == "");
    var g2 :- GenParams(g1, f.params, 0);
    Ok(CreateBlock(g2).(exit := |g2.blocks|))
  }

  /** The code after the body. */
  function GenEpilogue(g: Gen): Gen
    requires Ready(g) && g.exit < |g.blocks|
  {
    var g1 := InsertBlock(Emit(g, Br(g.exit)), g.exit).(cur := g.exit);
    match g1.result
    case None => Emit(g1, RetVoid)
    case Some(b) => Emit(Define(g1, Load(g1.nextReg, b.ty, b.val)), Ret(Reg(b.ty, g1.nextReg)))
  }

  function GenFunction(sigs: Sigs, f: Function): Result<Gen> {
    var g :- GenPrologue(f);
    var g1 :- GenStmts(sigs, g, f.body);
    Ok(GenEpilogue(g1))
  }
}
