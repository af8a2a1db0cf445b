/** The IR generator as an object: its methods move an insertion point through a growing
    list of blocks, and each does to the state what its specification in Codegen says. */
module IRGenerator {
  import opened Ast
  import opened IR
  import opened Typing
  import opened Codegen
  import opened Modules
  import Growth
  import NestedScopes

  /** A method that yields a value did what its specification says. */
  predicate Yields<T(==)>(spec: Result<(Gen, T)>, now: Gen, r: Result<T>) {
    match spec
    case Ok((g, v)) => r == Ok(v) && now == g
    case Err(e) => r == Err(e)
  }

  /** A method that only changes the state did what its specification says. */
  predicate Does(spec: Result<Gen>, now: Gen, failed: Option<CgError>) {
    match spec
    case Ok(g) => failed == Option.None && now == g
    case Err(e) => failed == Some(e)
  }

  class IRGenerator {
    const varScopes: NestedScopes.NestedScopes
    var sigs: Sigs
    var blocks: Blocks
    var layout: seq<nat>
    var cur: nat
    var nextReg: nat
    var nextSlot: nat
    var exitBlock: nat
    var returnVar: Option<Binding<nat>>

    ghost function State(): Gen
      reads this, varScopes
    {
      Gen(blocks, layout, cur, nextReg, nextSlot, varScopes.scopes, exitBlock, returnVar)
    }

    /** Between functions no scope is open and the per-function fields are reset. */
    predicate Idle()
      reads this, varScopes
    {
      varScopes.scopes == [] && exitBlock == 0 && returnVar.None?
    }

    constructor ()
      ensures fresh(varScopes) && Idle()
    {
      varScopes := new NestedScopes.NestedScopes();
      sigs := map[];
      blocks, layout, cur, nextReg, nextSlot := [], [], 0, 0, 0;
      exitBlock, returnVar := 0, Option.None;
    }

    // ----- builder -----

    method Insert(i: Instr)
      requires Ready(State())
      modifies `blocks
      ensures State() == Emit(old(State()), i) && |blocks| == |old(blocks)|
    {
      blocks := blocks[cur := blocks[cur] + [i]];
    }

    method InsertDef(i: Instr)
      requires Ready(State())
      modifies `blocks, `nextReg
      ensures State() == Define(old(State()), i) && |blocks| == |old(blocks)|
    {
      blocks := blocks[cur := blocks[cur] + [i]];
      nextReg := nextReg + 1;
    }

    /** Creates a block without inserting it. */
    method MakeBlock() returns (b: nat)
      modifies `blocks
      ensures b == |old(blocks)| == |blocks| - 1 && State() == CreateBlock(old(State()))
    {
      b := |blocks|;
      blocks := blocks + [[]];
    }

    method AppendBlock(b: nat)
      modifies `layout
      ensures State() == InsertBlock(old(State()), b)
    {
      layout := layout + [b];
    }

    method AddBlock() returns (b: nat)
      modifies `blocks, `layout
      ensures b == |old(blocks)| == |blocks| - 1 && State() == NewBlock(old(State()))
    {
      b := MakeBlock();
      AppendBlock(b);
    }

    method SetInsertPoint(b: nat)
      requires b < |blocks|
      modifies `cur
      ensures State() == old(State()).(cur := b)
    {
      cur := b;
    }

    /** Branches to a block and goes on there. */
    method JumpTo(b: nat)
      requires Ready(State()) && b < |blocks|
      modifies `blocks, `cur
      ensures State() == BranchTo(old(State()), b) && cur == b && |blocks| == |old(blocks)|
    {
      Insert(Br(b));
      SetInsertPoint(b);
    }

    /** Inserts a block created earlier and goes on there. */
    method ContinueAt(b: nat)
      requires b < |blocks|
      modifies `layout, `cur
      ensures State() == InsertBlock(old(State()), b).(cur := b) && cur == b
    {
      AppendBlock(b);
      SetInsertPoint(b);
    }

    method AllocateSlot(ty: Ty) returns (slot: nat)
      requires Ready(State())
      modifies `blocks, `nextSlot
      ensures slot == old(nextSlot) && State() == NewSlot(old(State()), ty) && |blocks| == |old(blocks)|
    {
      slot := nextSlot;
      Insert(Alloca(slot, ty));
      nextSlot := nextSlot + 1;
    }

    // ----- conversions -----

    method Convert(kind: CastKind, v: Operand, ty: Ty) returns (r: Operand)
      requires Ready(State())
      modifies `blocks, `nextReg
      ensures State() == Define(old(State()), Cast(old(nextReg), kind, v, ty)) && r == Reg(ty, old(nextReg))
      ensures |blocks| == |old(blocks)|
    {
      r := Reg(ty, nextReg);
      InsertDef(Cast(nextReg, kind, v, ty));
    }

    method EnsureTypeOf(v: Operand, ty: Ty, fail: CgError) returns (r: Result<Operand>)
      requires Ready(State())
      modifies `blocks, `nextReg
      ensures Yields(EnsureType(old(State()), v, ty, fail), State(), r)
    {
      if v.ty.Ptr? != ty.Ptr? {
        return Err(fail);
      }
      if v.ty.Ptr? {
        return Ok(v);
      }
      var o := v;
      if v.ty.IsInt() && ty.IsInt() {
        if v.ty != ty {
          o := Convert(if v.ty.Bits() < ty.Bits() then SExt else Trunc, v, ty);
        }
      } else if v.ty.IsFloat() && ty.IsInt() {
        o := Convert(FPToSI, v, ty);
      } else if v.ty.IsInt() && ty.IsFloat() {
        o := Convert(SIToFP, v, ty);
      } else if v.ty.IsFloat() && ty.IsFloat() {
        if v.ty != ty {
          o := Convert(FPCast, v, ty);
        }
      } else {
        return Err(InternalError);
      }
      return Ok(o);
    }

    method EvalTruthiness(v: Val) returns (r: Result<Operand>)
      requires Ready(State())
      modifies `blocks, `nextReg
      ensures Yields(Truthiness(old(State()), v), State(), r)
    {
      if v.cmp {
        return Ok(v.op);
      }
      if !v.op.ty.IsInt() && !v.op.ty.IsFloat() {
        return Err(NotBoolean);
      }
      var zero := EnsureTypeOf(Const(I64, 0), v.op.ty, InternalError);
      if zero.Err? {
        return Err(zero.error);
      }
      r := Ok(Reg(I1, nextReg));
      InsertDef(Cmp(nextReg, INE, v.op, zero.value));
    }

    // ----- expressions -----

    method VisitExpression(e: Expr) returns (r: Result<Val>)
      requires Ready(State())
      modifies `blocks, `nextReg
      ensures Yields(GenExpr(sigs, old(State()), e), State(), r)
      decreases e, 1
    {
      match e
      case IntLit(n) => r := Ok(Val(Const(I32, Wrap(I32, n)), false));
      case FloatLit(b) => r := Ok(Val(Const(F64, b), false));
      case Identifier(x) =>
        var b := varScopes.Lookup(x);
        if b.None? {
          return Err(UndefinedVariable);
        }
        r := Ok(Val(Reg(b.value.ty, nextReg), false));
        InsertDef(Load(nextReg, b.value.ty, b.value.val));
      case Binary(_, _, _, _) => r := VisitBinaryExpression(e);
      case Call(_, _) => r := VisitFunctionCallExpression(e);
    }

    method VisitBinaryExpression(e: Expr) returns (r: Result<Val>)
      requires Ready(State()) && e.Binary?
      modifies `blocks, `nextReg
      ensures Yields(GenBinary(sigs, old(State()), e), State(), r)
      decreases e, 0
    {
      r := VisitExpression(e.left);
      if r.Err? { return; }
      var l := r.value.op;
      r := VisitExpression(e.right);
      if r.Err? { return; }
      var rv := r.value.op;
      if l.ty.Ptr? || rv.ty.Ptr? {
        return Err(PointerArithmetic);
      }
      var ty := CalcType(sigs, varScopes.scopes, e);
      if ty.Err? {
        return Err(ty.error);
      }
      r := CreateOperation(e.op, ty.value, l, rv);
    }

    method CreateOperation(op: Op, ty: Ty, l: Operand, r: Operand) returns (res: Result<Val>)
      requires Ready(State())
      modifies `blocks, `nextReg
      ensures Yields(GenOperation(old(State()), op, ty, l, r), State(), res)
    {
      hide GenOp, EnsureType;
      var a := EnsureTypeOf(l, ty, InternalError);
      if a.Err? {
        return Err(a.error);
      }
      var b := EnsureTypeOf(r, ty, InternalError);
      if b.Err? {
        return Err(b.error);
      }
      res := CreateInstruction(op, ty, a.value, b.value);
    }

    /** The instruction table: an integer or floating point operation or comparison. */
    method CreateInstruction(op: Op, ty: Ty, a: Operand, b: Operand) returns (r: Result<Val>)
      requires Ready(State())
      modifies `blocks, `nextReg
      ensures Yields(GenOp(old(State()), op, ty, a, b), State(), r)
    {
      var d := nextReg;
      if ty.IsInt() {
        if IntBinOp(op).Some? {
          InsertDef(Bin(d, IntBinOp(op).value, a, b));
          return Ok(Val(Reg(ty, d), false));
        }
        if IntPred(op).Some? {
          InsertDef(Cmp(d, IntPred(op).value, a, b));
          return Ok(Val(Reg(I1, d), true));
        }
        return Err(InternalError);
      }
      if ty.IsFloat() {
        if FloatBinOp(op).Some? {
          InsertDef(Bin(d, FloatBinOp(op).value, a, b));
          return Ok(Val(Reg(ty, d), false));
        }
        if FloatPred(op).Some? {
          InsertDef(Cmp(d, FloatPred(op).value, a, b));
          return Ok(Val(Reg(I1, d), true));
        }
        return Err(NotForFloats);
      }
      return Err(InternalError);
    }

    method VisitFunctionCallExpression(e: Expr) returns (r: Result<Val>)
      requires Ready(State()) && e.Call?
      modifies `blocks, `nextReg
      ensures Yields(GenCall(sigs, old(State()), e), State(), r)
      decreases e, 0
    {
      if e.fn !in sigs {
        return Err(UndefinedFunction);
      }
      var sig := sigs[e.fn];
      var callArgs: seq<Operand> := [];
      var i := 0;
      WithNoArgs(GenArgs(sigs, State(), e.args, sig.params));
      assert e.args[0..] == e.args && sig.params[0..] == sig.params;
      while i < |e.args|
        invariant 0 <= i <= |e.args| && i <= |sig.params| && Ready(State())
        invariant GenArgs(sigs, old(State()), e.args, sig.params)
               == WithArgs(callArgs, GenArgs(sigs, State(), e.args[i..], sig.params[i..]))
      {
        ghost var g := State();
        var v := VisitExpression(e.args[i]);
        if v.Err? {
          return Err(v.error);
        }
        if i == |sig.params| {
          return Err(ArgumentCount);
        }
        var o := EnsureTypeOf(v.value.op, sig.params[i], CannotPass);
        if o.Err? {
          return Err(o.error);
        }
        assert e.args[i..][1..] == e.args[i + 1..] && sig.params[i..][1..] == sig.params[i + 1..];
        assert GenArgs(sigs, g, e.args[i..], sig.params[i..])
            == WithArgs([o.value], GenArgs(sigs, State(), e.args[i + 1..], sig.params[i + 1..]));
        WithArgsTwice(callArgs, [o.value], GenArgs(sigs, State(), e.args[i + 1..], sig.params[i + 1..]));
        callArgs := callArgs + [o.value];
        i := i + 1;
      }
      if i != |sig.params| {
        return Err(ArgumentCount);
      }
      assert callArgs + [] == callArgs;
      r := Ok(Val(Reg(sig.ret, nextReg), false));
      InsertDef(CallFn(nextReg, e.fn, sig.ret, callArgs));
    }

    method EvalBooleanCondition(e: Expr) returns (r: Result<Operand>)
      requires Ready(State())
      modifies `blocks, `nextReg
      ensures Yields(GenCondition(sigs, old(State()), e), State(), r)
    {
      var v := VisitExpression(e);
      if v.Err? {
        return Err(v.error);
      }
      r := EvalTruthiness(v.value);
    }

    // ----- statements -----

    method VisitVardeclStatement(x: string, ty: Ty, init: Option<Expr>) returns (failed: Option<CgError>)
      requires Ready(State())
      modifies `blocks, `nextReg, `nextSlot, varScopes
      ensures Does(GenVardecl(sigs, old(State()), x, ty, init), State(), failed)
    {
      if ty.Void? || varScopes.scopes == [] {
        return Some(InternalError);
      }
      var slot := AllocateSlot(ty);
      var isNew := varScopes.Define(x, Binding(ty, slot));
      if !isNew {
        return Some(Redefinition);
      }
      if init.None? {
        return Option.None;
      }
      var v := VisitExpression(init.value);
      if v.Err? {
        return Some(v.error);
      }
      var o := EnsureTypeOf(v.value.op, ty, CannotInitialize);
      if o.Err? {
        return Some(o.error);
      }
      Insert(Store(o.value, slot));
      return Option.None;
    }

    method VisitReturnStatement(value: Option<Expr>) returns (failed: Option<CgError>)
      requires Ready(State())
      modifies `blocks, `nextReg, `layout, `cur
      ensures Does(GenReturn(sigs, old(State()), value), State(), failed)
    {
      if value.Some? {
        var v := VisitExpression(value.value);
        if v.Err? {
          return Some(v.error);
        }
        if returnVar.None? {
          return Some(InternalError);
        }
        var o := EnsureTypeOf(v.value.op, returnVar.value.ty, CannotReturn);
        if o.Err? {
          return Some(o.error);
        }
        Insert(Store(o.value, returnVar.value.val));
      }
      LeaveFunction();
      return Option.None;
    }

    /** The jump to the exit block; whatever follows goes to a block that is not reached. */
    method LeaveFunction()
      requires Ready(State())
      modifies `blocks, `layout, `cur
      ensures State() == AfterReturn(old(State()))
    {
      Insert(Br(exitBlock));
      var after := AddBlock();
      SetInsertPoint(after);
      Insert(Unreachable);
    }

    method VisitAssignStatement(x: string, e: Expr) returns (failed: Option<CgError>)
      requires Ready(State())
      modifies `blocks, `nextReg
      ensures Does(GenAssign(sigs, old(State()), x, e), State(), failed)
    {
      var v := VisitExpression(e);
      if v.Err? {
        return Some(v.error);
      }
      var b := varScopes.Lookup(x);
      if b.None? {
        return Some(UndefinedVariable);
      }
      var o := EnsureTypeOf(v.value.op, b.value.ty, CannotAssign);
      if o.Err? {
        return Some(o.error);
      }
      Insert(Store(o.value, b.value.val));
      return Option.None;
    }

    method VisitInputStatement(x: string) returns (failed: Option<CgError>)
      requires Ready(State())
      modifies `blocks, `nextReg, `nextSlot
      ensures Does(GenInput(old(State()), x), State(), failed)
    {
      var b := varScopes.Lookup(x);
      if b.None? {
        return Some(UndefinedVariable);
      }
      var ty := b.value.ty;
      if !ty.IsInt() && !ty.IsFloat() {
        return Some(CannotRead);
      }
      var target := b.value.val;
      if ty == I1 {
        target := AllocateSlot(I32);
      }
      Insert(CallScan(ty, target));
      if ty == I1 {
        var loaded := Reg(I1, nextReg);
        InsertDef(Load(nextReg, I1, target));
        var o := EvalTruthiness(Val(loaded, false));
        if o.Err? {
          return Some(o.error);
        }
        Insert(Store(o.value, b.value.val));
      }
      return Option.None;
    }

    method VisitPrintStatement(e: Expr) returns (failed: Option<CgError>)
      requires Ready(State())
      modifies `blocks, `nextReg
      ensures Does(GenPrint(sigs, old(State()), e), State(), failed)
    {
      hide GenExpr, Emit, Define;
      var v := VisitExpression(e);
      if v.Err? {
        return Some(v.error);
      }
      var o, ty := v.value.op, v.value.op.ty;
      if !ty.IsInt() && !ty.IsFloat() {
        return Some(CannotPrint);
      }
      if ty.IsInt() && ty.Bits() < 32 {
        o := Convert(ZExt, o, I32);
      }
      if ty.F32? {
        o := Convert(FPCast, o, F64);
      }
      Insert(CallPrint(ty, o));
      return Option.None;
    }

    method VisitAssertStatement(e: Expr) returns (failed: Option<CgError>)
      requires Ready(State())
      modifies `blocks, `nextReg, `layout, `cur
      ensures Does(GenAssert(sigs, old(State()), e), State(), failed)
    {
      hide GenAssert, GenCondition, Emit, CreateBlock, InsertBlock, NewBlock, BranchTo, Checked;
      AssertParts(sigs, State(), e);
      var check := AddBlock();
      var fail := AddBlock();
      var success := AddBlock();
      JumpTo(check);
      ghost var g1 := State();
      assert g1 == BranchTo(NewBlock(NewBlock(NewBlock(old(State())))), check);
      var c := EvalBooleanCondition(e);
      if c.Err? {
        return Some(c.error);
      }
      AbortUnless(c.value, success, fail);
      return Option.None;
    }

    method AbortUnless(c: Operand, success: nat, fail: nat)
      requires Ready(State()) && success < |blocks| && fail < |blocks|
      modifies `blocks, `cur
      ensures State() == Checked(old(State()), c, success, fail)
    {
      hide Emit;
      Insert(CondBr(c, success, fail));
      SetInsertPoint(fail);
      Insert(CallAbort);
      JumpTo(success);
    }

    method VisitStatement(s: Stmt) returns (failed: Option<CgError>)
      requires Ready(State())
      modifies `blocks, `layout, `cur, `nextReg, `nextSlot, varScopes
      ensures Does(GenStmt(sigs, old(State()), s), State(), failed)
      decreases s, 1
    {
      failed := Option.None;
      match s
      case Assert(e) => failed := VisitAssertStatement(e);
      case Input(x) => failed := VisitInputStatement(x);
      case Abort => Insert(CallAbort);
      case Vardecl(x, t, init) => failed := VisitVardeclStatement(x, IRType(t), init);
      case Return(v) => failed := VisitReturnStatement(v);
      case Print(e) => failed := VisitPrintStatement(e);
      case Assign(x, e) => failed := VisitAssignStatement(x, e);
      case ExprStmt(e) =>
        var v := VisitExpression(e);
        failed := if v.Ok? then Option.None else Some(v.error);
      case Loop(_, _) => failed := VisitLoopStatement(s);
      case Branch(_, _, _) => failed := VisitBranchStatement(s);
    }

    /** The statements of a body, one after the other. */
    method VisitBody(body: seq<Stmt>) returns (failed: Option<CgError>)
      requires Ready(State())
      modifies `blocks, `layout, `cur, `nextReg, `nextSlot, varScopes
      ensures Does(GenStmts(sigs, old(State()), body), State(), failed)
      decreases body, 0
    {
      var i := 0;
      assert body[0..] == body;
      while i < |body|
        invariant 0 <= i <= |body| && Ready(State())
        invariant GenStmts(sigs, old(State()), body) == GenStmts(sigs, State(), body[i..])
      {
        failed := VisitStatement(body[i]);
        assert body[i..][1..] == body[i + 1..];
        if failed.Some? {
          return;
        }
        i := i + 1;
      }
      failed := Option.None;
    }

    method VisitLoopStatement(s: Stmt) returns (failed: Option<CgError>)
      requires Ready(State()) && s.Loop?
      modifies `blocks, `layout, `cur, `nextReg, `nextSlot, varScopes
      ensures Does(GenLoop(sigs, old(State()), s), State(), failed)
      decreases s, 0
    {
      hide GenLoop, GenStmts, LoopCondition, Emit, CreateBlock, InsertBlock, NewBlock, BranchTo;
      LoopParts(sigs, State(), s);
      var body := AddBlock();
      JumpTo(body);
      varScopes.EnterScope();
      ghost var g1 := State();
      assert g1 == EnterScope(BranchTo(NewBlock(old(State())), body));
      failed := VisitBody(s.body);
      if failed.Some? {
        return;
      }
      LeaveInnermost();
      failed := VisitLoopCondition(s.cond, body);
    }

    /** The block of a loop's condition, from where it goes on or back to the body. */
    method VisitLoopCondition(cond: Expr, body: nat) returns (failed: Option<CgError>)
      requires Ready(State())
      modifies `blocks, `layout, `cur, `nextReg
      ensures Does(LoopCondition(sigs, old(State()), cond, body), State(), failed)
    {
      hide GenCondition, Emit, CreateBlock, InsertBlock, NewBlock, BranchTo;
      var condition := AddBlock();
      var after := MakeBlock();
      JumpTo(condition);
      var c := EvalBooleanCondition(cond);
      if c.Err? {
        return Some(c.error);
      }
      Insert(CondBr(c.value, body, after));
      ContinueAt(after);
      return Option.None;
    }

    /** The destructor of a scope guard. */
    method LeaveInnermost()
      modifies varScopes
      ensures State() == LeaveScope(old(State()))
    {
      if varScopes.scopes != [] {
        varScopes.LeaveScope();
      }
    }

    method VisitBranchCase(c: Case, exit: nat) returns (failed: Option<CgError>)
      requires Ready(State())
      modifies `blocks, `layout, `cur, `nextReg, `nextSlot, varScopes
      ensures Does(GenCase(sigs, old(State()), c, exit), State(), failed)
      decreases c
    {
      hide GenCase, GenStmts, GenCondition, Emit, CreateBlock, InsertBlock, NewBlock, BranchTo;
      CaseParts(sigs, State(), c, exit);
      var condition := EvalBooleanCondition(c.cond);
      if condition.Err? {
        return Some(condition.error);
      }
      var next := MakeBlock();
      var body := AddBlock();
      Insert(CondBr(condition.value, body, next));
      SetInsertPoint(body);
      failed := VisitBody(c.body);
      if failed.Some? {
        return;
      }
      Insert(Br(exit));
      ContinueAt(next);
    }

    method VisitBranchCases(cases: seq<Case>, exit: nat) returns (failed: Option<CgError>)
      requires Ready(State())
      modifies `blocks, `layout, `cur, `nextReg, `nextSlot, varScopes
      ensures Does(GenCases(sigs, old(State()), cases, exit), State(), failed)
      decreases cases
    {
      var i := 0;
      assert cases[0..] == cases;
      while i < |cases|
        invariant 0 <= i <= |cases| && Ready(State())
        invariant GenCases(sigs, old(State()), cases, exit) == GenCases(sigs, State(), cases[i..], exit)
      {
        failed := VisitBranchCase(cases[i], exit);
        assert cases[i..][1..] == cases[i + 1..];
        if failed.Some? {
          return;
        }
        i := i + 1;
      }
      failed := Option.None;
    }

    method VisitBranchElse(els: Else) returns (failed: Option<CgError>)
      requires Ready(State())
      modifies `blocks, `layout, `cur, `nextReg, `nextSlot, varScopes
      ensures Does(GenElse(sigs, old(State()), els), State(), failed)
      decreases els
    {
      if els.NoElse? {
        return Option.None;
      }
      varScopes.EnterScope();
      var block := AddBlock();
      JumpTo(block);
      failed := VisitBody(els.body);
      if failed.Some? {
        return;
      }
      LeaveInnermost();
    }

    method VisitBranchStatement(s: Stmt) returns (failed: Option<CgError>)
      requires Ready(State()) && s.Branch?
      modifies `blocks, `layout, `cur, `nextReg, `nextSlot, varScopes
      ensures Does(GenBranch(sigs, old(State()), s), State(), failed)
      decreases s, 0
    {
      hide GenBranch, GenCases, GenElse, Emit, CreateBlock, InsertBlock, NewBlock, BranchTo, Growth.BranchHead;
      BranchParts(sigs, State(), s);
      var exit := OpenBranch();
      failed := VisitBranchCases(s.cases, exit);
      if failed.Some? {
        return;
      }
      failed := VisitBranchElse(s.els);
      if failed.Some? {
        return;
      }
      Insert(Br(exit));
      ContinueAt(exit);
    }

    /** The first two blocks of a branch, up to its first condition, and the block after it. */
    method OpenBranch() returns (exit: nat)
      requires Ready(State())
      modifies `blocks, `layout, `cur
      ensures State() == Growth.BranchHead(old(State())) && exit == |old(blocks)| + 1 && exit < |blocks| && Ready(State())
    {
      hide Emit, BranchTo;
      var entry := AddBlock();
      exit := MakeBlock();
      JumpTo(entry);
      var condition := AddBlock();
      JumpTo(condition);
    }
  
    // ----- functions and modules -----

    method CreateResultVariable(ret: Ty, entryPoint: bool) returns (failed: Option<CgError>)
      requires Ready(State())
      modifies `blocks, `nextReg, `nextSlot, `returnVar
      ensures Does(GenResult(old(State()), ret, entryPoint), State(), failed)
    {
      if ret.Void? {
        returnVar := Option.None;
        return Option.None;
      }
      var slot := AllocateSlot(ret);
      returnVar := Some(Binding(ret, slot));
      if entryPoint {
        if !ret.IsInt() {
          return Some(InternalError);
        }
        var zero := EnsureTypeOf(Const(I64, 0), ret, InternalError);
        if zero.Err? {
          return Some(zero.error);
        }
        Insert(Store(zero.value, slot));
      }
      return Option.None;
    }

    method CopyParameters(params: seq<Param>) returns (failed: Option<CgError>)
      requires Ready(State())
      modifies `blocks, `nextSlot, varScopes
      ensures Does(GenParams(old(State()), params, 0), State(), failed)
    {
      hide IRType, CreateBlock, InsertBlock, EnterScope, LeaveScope, GenParams, NewSlot, Emit;
      var i := 0;
      assert params[0..] == params;
      while i < |params|
        invariant 0 <= i <= |params| && Ready(State())
        invariant GenParams(old(State()), params, 0) == GenParams(State(), params[i..], i)
      {
        ParamsTurn(State(), params[i..], i);
        assert params[i..][1..] == params[i + 1..];
        var ty := IRType(params[i].ty);
        if ty.Void? || varScopes.scopes == [] {
          return Some(InternalError);
        }
        var slot := AllocateSlot(ty);
        Insert(Store(Arg(ty, i), slot));
        var isNew := varScopes.Define(params[i].name, Binding(ty, slot));
        if !isNew {
          return Some(InternalError);
        }
        i := i + 1;
      }
      assert params[i..] == [];
      NoParams(State(), i);
      return Option.None;
    }

    /** Everything before the body. */
    method OpenFunction(f: Function) returns (failed: Option<CgError>)
      requires Idle()
      modifies this`blocks, this`layout, this`cur, this`nextReg, this`nextSlot, this`exitBlock, this`returnVar, varScopes
      ensures Does(GenPrologue(f), State(), failed)
    {
      hide GenParams, GenResult;
      varScopes.EnterScope();
      blocks, layout, cur, nextReg, nextSlot := [], [], 0, 0, 0;
      var entry := AddBlock();
      SetInsertPoint(entry);
      assert State() == NewBlock(EnterScope(BLANK));
      failed := CreateResultVariable(IRType(f.ret), f.name == "");
      if failed.Some? { return; }
      failed := CopyParameters(f.params);
      if failed.Some? { return; }
      exitBlock := MakeBlock();
    }

    /** Everything after the body. */
    method CloseFunction()
      requires Ready(State()) && exitBlock < |blocks|
      modifies `blocks, `layout, `cur, `nextReg
      ensures State() == GenEpilogue(old(State()))
    {
      Insert(Br(exitBlock));
      ContinueAt(exitBlock);
      if returnVar.Some? {
        var loaded := Reg(returnVar.value.ty, nextReg);
        InsertDef(Load(nextReg, returnVar.value.ty, returnVar.value.val));
        Insert(Ret(loaded));
      } else {
        Insert(RetVoid);
      }
    }

    /** The result is a function of `f` and the declared signatures: nothing is left over
        from the functions generated before, and nothing is left behind. */
    method VisitFunction(f: Function) returns (r: Result<Definition>)
      requires Idle()
      modifies this`blocks, this`layout, this`cur, this`nextReg, this`nextSlot, this`exitBlock, this`returnVar, varScopes
      ensures r == DefineFunction(sigs, f)
      ensures r.Ok? ==> Idle()
    {
      hide GenPrologue, GenStmts, GenEpilogue;
      if f.body == [] {
        return Ok(Prototype);
      }
      var failed := OpenFunction(f);
      if failed.Some? {
        return Err(failed.value);
      }
      ghost var g := State();
      failed := VisitBody(f.body);
      if failed.Some? {
        return Err(failed.value);
      }
      ghost var g1 := State();
      Growth.BodyBalanced(sigs, f, g, g1);
      CloseFunction();
      LeaveInnermost();
      EpilogueKeeps(g1);
      exitBlock, returnVar := 0, Option.None;
      r := Ok(Defined(blocks, layout));
    }

    method DeclareFunction(f: Function) returns (failed: Option<CgError>)
      modifies `sigs
      ensures match Declare(old(sigs), f)
              case Ok(s) => failed == Option.None && sigs == s
              case Err(e) => failed == Some(e)
    {
      if FunctionName(f) in sigs {
        return Some(InternalError);
      }
      sigs := sigs[FunctionName(f) := SigOf(f)];
      return Option.None;
    }

    method DeclareFunctions(fs: seq<Function>) returns (failed: Option<CgError>)
      modifies `sigs
      ensures match DeclareAll(old(sigs), fs)
              case Ok(s) => failed == Option.None && sigs == s
              case Err(e) => failed == Some(e)
    {
      hide Declare;
      var i := 0;
      assert fs[0..] == fs;
      while i < |fs|
        invariant 0 <= i <= |fs|
        invariant DeclareAll(old(sigs), fs) == DeclareAll(sigs, fs[i..])
      {
        assert fs[i..][1..] == fs[i + 1..];
        failed := DeclareFunction(fs[i]);
        if failed.Some? { return; }
        i := i + 1;
      }
      return Option.None;
    }

    method VisitModule(m: Module) returns (r: Result<seq<Item>>)
      requires Idle()
      modifies this, varScopes
      ensures r == GenModule(m)
    {
      hide DefineFunction, SigOf;
      sigs := BUILTINS;
      var fs := AllFunctions(m);
      var failed := DeclareFunctions(fs);
      if failed.Some? {
        return Err(failed.value);
      }
      var items: seq<Item> := [];
      var i := 0;
      assert fs[0..] == fs;
      WithNoItems(DefineAll(sigs, fs));
      while i < |fs|
        invariant 0 <= i <= |fs| && Idle() && DeclareAll(BUILTINS, fs) == Ok(sigs)
        invariant DefineAll(sigs, fs) == WithItems(items, DefineAll(sigs, fs[i..]))
      {
        assert fs[i..][1..] == fs[i + 1..];
        var d := VisitFunction(fs[i]);
        if d.Err? {
          return Err(d.error);
        }
        var item := Item(FunctionName(fs[i]), SigOf(fs[i]), d.value);
        WithItemsTwice(items, [item], DefineAll(sigs, fs[i + 1..]));
        items := items + [item];
        i := i + 1;
      }
      assert items + [] == items;
      return Ok(items);
    }
  }

  lemma NoParams(g: Gen, index: nat)
    requires Ready(g)
    ensures GenParams(g, [], index) == Ok(g)
  {
  }

  /** One turn of the loop over parameters. */
  lemma ParamsTurn(g: Gen, params: seq<Param>, index: nat)
    requires Ready(g) && params != []
    ensures var x, ty := params[0].name, IRType(params[0].ty);
            if ty.Void? || g.scopes == [] || x in g.scopes[|g.scopes| - 1] then GenParams(g, params, index) == Err(InternalError)
            else
              var g1 := Emit(NewSlot(g, ty), Store(Arg(ty, index), g.nextSlot)).(scopes := Bind(g.scopes, x, Binding(ty, g.nextSlot)));
              Ready(g1) && GenParams(g, params, index) == GenParams(g1, params[1..], index + 1)
  {
  }

  /** The state after the jump of a return. */
  function AfterReturn(g: Gen): Gen
    requires Ready(g)
  {
    Emit(NewBlock(Emit(g, Br(g.exit))).(cur := |g.blocks|), Unreachable)
  }

  lemma CaseParts(sigs: Sigs, g: Gen, c: Case, exit: nat)
    requires Ready(g)
    ensures var r := GenCondition(sigs, g, c.cond);
            && (r.Err? ==> GenCase(sigs, g, c, exit) == Err(r.error))
            && (r.Ok? ==>
                  var next, body := |r.value.0.blocks|, |r.value.0.blocks| + 1;
                  var fork := NewBlock(CreateBlock(r.value.0));
                  && Ready(fork) && body < |fork.blocks|
                  && var s := GenStmts(sigs, Emit(fork, CondBr(r.value.1, body, next)).(cur := body), c.body);
                     && (s.Err? ==> GenCase(sigs, g, c, exit) == Err(s.error))
                     && (s.Ok? ==> GenCase(sigs, g, c, exit) == Ok(InsertBlock(Emit(s.value, Br(exit)), next).(cur := next))))
  {
    hide GenCondition, GenStmts;
  }

  lemma BranchParts(sigs: Sigs, g: Gen, s: Stmt)
    requires Ready(g) && s.Branch?
    ensures var exit, r := |g.blocks| + 1, GenCases(sigs, Growth.BranchHead(g), s.cases, |g.blocks| + 1);
            && (r.Err? ==> GenBranch(sigs, g, s) == Err(r.error))
            && (r.Ok? ==>
                  var e := GenElse(sigs, r.value, s.els);
                  && (e.Err? ==> GenBranch(sigs, g, s) == Err(e.error))
                  && (e.Ok? ==> GenBranch(sigs, g, s) == Ok(InsertBlock(Emit(e.value, Br(exit)), exit).(cur := exit))))
  {
    hide GenCases, GenElse;
  }

  /** Branching on a check, with an abort where it fails. */
  function Checked(g: Gen, c: Operand, success: nat, fail: nat): Gen
    requires Ready(g) && success < |g.blocks| && fail < |g.blocks|
  {
    BranchTo(Emit(Emit(g, CondBr(c, success, fail)).(cur := fail), CallAbort), success)
  }

  lemma AssertParts(sigs: Sigs, g: Gen, e: Expr)
    requires Ready(g)
    ensures var r := GenCondition(sigs, BranchTo(NewBlock(NewBlock(NewBlock(g))), |g.blocks|), e);
            && (r.Err? ==> GenAssert(sigs, g, e) == Err(r.error))
            && (r.Ok? ==>
                  && |g.blocks| + 2 < |r.value.0.blocks|
                  && GenAssert(sigs, g, e) == Ok(Checked(r.value.0, r.value.1, |g.blocks| + 2, |g.blocks| + 1)))
  {
    hide GenCondition;
  }

  /** What a loop consists of behind its body. */
  function LoopCondition(sigs: Sigs, g: Gen, cond: Expr, body: nat): Result<Gen>
    requires Ready(g)
  {
    var test := |g.blocks|;
    var (g1, c) :- GenCondition(sigs, BranchTo(CreateBlock(NewBlock(g)), test), cond);
    Ok(InsertBlock(Emit(g1, CondBr(c, body, test + 1)), test + 1).(cur := test + 1))
  }

  lemma LoopParts(sigs: Sigs, g: Gen, s: Stmt)
    requires Ready(g) && s.Loop?
    ensures var head := |g.blocks|;
            var r := GenStmts(sigs, EnterScope(BranchTo(NewBlock(g), head)), s.body);
            && (r.Err? ==> GenLoop(sigs, g, s) == Err(r.error))
            && (r.Ok? ==> GenLoop(sigs, g, s) == LoopCondition(sigs, LeaveScope(r.value), s.cond, head))
  {
    hide GenStmts, GenCondition;
  }

  lemma EpilogueKeeps(g: Gen)
    requires Ready(g) && g.exit < |g.blocks|
    ensures GenEpilogue(g).scopes == g.scopes
  {
  }

  /** Items already made, put in front of the remaining ones. */
  function WithItems(done: seq<Item>, r: Result<seq<Item>>): Result<seq<Item>> {
    match r
    case Ok(items) => Ok(done + items)
    case Err(e) => Err(e)
  }

  lemma WithNoItems(r: Result<seq<Item>>)
    ensures WithItems([], r) == r
  {
    if r.Ok? {
      assert [] + r.value == r.value;
    }
  }

  lemma WithItemsTwice(a: seq<Item>, b: seq<Item>, r: Result<seq<Item>>)
    ensures WithItems(a, WithItems(b, r)) == WithItems(a + b, r)
  {
    if r.Ok? {
      assert a + (b + r.value) == a + b + r.value;
    }
  }

  /** Arguments already converted, put in front of the remaining ones. */
  function WithArgs(done: seq<Operand>, r: Result<(Gen, seq<Operand>)>): Result<(Gen, seq<Operand>)> {
    match r
    case Ok((g, os)) => Ok((g, done + os))
    case Err(e) => Err(e)
  }

  lemma WithNoArgs(r: Result<(Gen, seq<Operand>)>)
    ensures WithArgs([], r) == r
  {
    if r.Ok? {
      assert [] + r.value.1 == r.value.1;
    }
  }

  lemma WithArgsTwice(a: seq<Operand>, b: seq<Operand>, r: Result<(Gen, seq<Operand>)>)
    ensures WithArgs(a, WithArgs(b, r)) == WithArgs(a + b, r)
  {
    if r.Ok? {
      assert a + (b + r.value.1) == a + b + r.value.1;
    }
  }
}
