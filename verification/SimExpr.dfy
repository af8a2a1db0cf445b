/** Expression code is correct: running what is generated for an expression computes
    the value of the expression, causes the same events, and disturbs nothing else. */
module SimExpr {
  import opened Ast
  import opened IR
  import opened Typing
  import opened Codegen
  import opened Source

  /** A program in context and the machine code that is meant to simulate it. */
  datatype World = World(cx: Ctx, code: Blocks, args: seq<int>)

  function Go(w: World, m: MState, k: nat): Config { Run(w.code, w.cx.env, w.args, Live(m), k) }

  /** The finished code has everything generated so far in its place. */
  predicate Within(g: Gen, code: Blocks) {
    |g.blocks| <= |code| && forall b | 0 <= b < |g.blocks| :: g.blocks[b] <= code[b]
  }

  lemma WithinAppends(g: Gen, g': Gen, code: Blocks)
    requires Ready(g) && Appends(g, g') && Within(g', code)
    ensures Within(g, code)
  {
    forall b | 0 <= b < |g.blocks|
      ensures g.blocks[b] <= code[b]
    {
      assert g'.blocks[b] <= code[b];
    }
  }

  /** The machine stands where the next instruction will be generated. */
  predicate At(g: Gen, m: MState)
    requires Ready(g)
  {
    m.blk == g.cur && m.pc == |g.blocks[g.cur]|
  }

  // ----- variables and slots -----

  predicate SlotHolds(b: Binding<nat>, v: Binding<Content>, mem: map<nat, Cell>) {
    && b.ty == v.ty
    && match v.val
       case Missing => true
       case Undef => b.val in mem && mem[b.val] == Cell(b.ty, None)
       case Def(n) => InRange(b.ty, n) && b.val in mem && mem[b.val] == Cell(b.ty, Some(n))
  }

  /** Scope by scope, every visible variable and the slot its name resolves to agree. */
  predicate Agree(sc: Scopes<nat>, fr: Frame, mem: map<nat, Cell>) {
    && |sc| == |fr|
    && forall i | 0 <= i < |sc| ::
      sc[i].Keys == fr[i].Keys && forall x | x in sc[i] :: SlotHolds(sc[i][x], fr[i][x], mem)
  }

  lemma {:induction false} SameLevel<A, B>(a: Scopes<A>, b: Scopes<B>, x: string)
    requires |a| == |b| && forall i | 0 <= i < |a| :: a[i].Keys == b[i].Keys
    ensures Level(a, x) == Level(b, x)
    decreases |a|
  {
    if a != [] {
      SameLevel(a[..|a| - 1], b[..|b| - 1], x);
    }
  }

  lemma {:induction false} SameType(sigs: Sigs, sc: Scopes<nat>, fr: Frame, mem: map<nat, Cell>, e: Expr)
    requires Agree(sc, fr, mem)
    ensures CalcType(sigs, sc, e) == CalcType(sigs, fr, e)
    decreases e
  {
    match e
    case Identifier(x) => SameLevel(sc, fr, x);
    case Binary(_, l, r, _) =>
      SameType(sigs, sc, fr, mem, l);
      SameType(sigs, sc, fr, mem, r);
    case _ =>
  }

  // ----- one instruction -----

  lemma EmitSteps(w: World, g: Gen, i: Instr, m: MState)
    requires Ready(g) && At(g, m) && Within(Emit(g, i), w.code)
    ensures Go(w, m, 1) == ExecInstr(w.cx.env, w.args, i, m)
  {
    assert Emit(g, i).blocks[g.cur] <= w.code[g.cur];
    assert w.code[g.cur][m.pc] == i;
    assert Run(w.code, w.cx.env, w.args, Step(w.code, w.cx.env, w.args, Live(m)), 0)
        == Step(w.code, w.cx.env, w.args, Live(m));
  }

  // ----- values -----

  predicate KeepsRegs(m: MState, m': MState, n: nat) {
    forall r | r in m.regs && r < n :: r in m'.regs && m'.regs[r] == m.regs[r]
  }

  /** The machine came from `m` to `m'`, the end of the current block, touching only
      registers from `lo` up and the trace. */
  predicate Ran(g: Gen, m: MState, m': MState, lo: nat)
    requires Ready(g)
  {
    && m' == m.(pc := |g.blocks[g.cur]|, regs := m'.regs, trace := m'.trace)
    && KeepsRegs(m, m', lo)
  }

  predicate HaltsAs(w: World, m: MState, k: nat, o: Outcome, t: seq<Event>) {
    o != IllFormed && (o == Undeclared || Go(w, m, k) == Done(o, t))
  }

  /** After `k` steps from `m`, one for each instruction, the machine has done what `res`
      says: either it is at `m'` with the value in operand `v`, or it has halted on the way. */
  predicate Computes(w: World, g: Gen, v: Operand, m: MState, m': MState, lo: nat, k: nat, res: Eval)
    requires Ready(g)
  {
    match res
    case Value(ty, n, t) =>
      && Go(w, m, k) == Live(m') && Ran(g, m, m', lo) && m'.pc == m.pc + k && m'.trace == t
      && v.ty == ty && InRange(ty, n) && OperandValue(w.args, m', v) == Some(n)
    case Halt(o, t) => HaltsAs(w, m, k, o, t) && m.pc + k <= |g.blocks[g.cur]|
  }

  lemma NoSteps(w: World, m: MState)
    ensures Go(w, m, 0) == Live(m)
  {
  }

  lemma GoOn(w: World, m: MState, m1: MState, k1: nat, k2: nat)
    requires Go(w, m, k1) == Live(m1)
    ensures Go(w, m, k1 + k2) == Go(w, m1, k2)
  {
    RunAdds(w.code, w.cx.env, w.args, Live(m), k1, k2);
  }

  lemma ThenComputes(w: World, g1: Gen, g2: Gen, v: Operand, m: MState, m1: MState, m2: MState,
                     lo: nat, mid: nat, k1: nat, k2: nat, res: Eval)
    requires Ready(g1) && Ready(g2) && lo <= mid && Go(w, m, k1) == Live(m1) && Ran(g1, m, m1, lo) && m1.pc == m.pc + k1
    requires Computes(w, g2, v, m1, m2, mid, k2, res)
    ensures Computes(w, g2, v, m, m2, lo, k1 + k2, res)
  {
    hide ExecInstr;
    GoOn(w, m, m1, k1, k2);
  }

  /** A halt is a halt whatever would have been generated next. */
  lemma HaltComputes(w: World, g: Gen, g': Gen, v: Operand, v': Operand, m: MState, m': MState, lo: nat, k: nat, res: Eval)
    requires Ready(g) && Ready(g') && |g.blocks[g.cur]| <= |g'.blocks[g'.cur]|
    requires res.Halt? && Computes(w, g, v, m, m', lo, k, res)
    ensures Computes(w, g', v', m, m', lo, k, res)
  {
  }

  function Outcome1(ty: Ty, c: Option<int>, t: seq<Event>): Eval {
    if c.Some? then Value(ty, c.value, t) else Halt(Undefined, t)
  }

  /** One instruction that sets the next register. */
  lemma DefineComputes(w: World, g: Gen, i: Instr, ty: Ty, c: Option<int>, m: MState) returns (m': MState)
    requires Ready(g) && At(g, m) && Within(Define(g, i), w.code)
    requires ExecInstr(w.cx.env, w.args, i, m) == SetReg(m, g.nextReg, c)
    requires c.Some? ==> InRange(ty, c.value)
    ensures Computes(w, Define(g, i), Reg(ty, g.nextReg), m, m', g.nextReg, 1, Outcome1(ty, c, m.trace))
  {
    assert Define(g, i).blocks == Emit(g, i).blocks;
    EmitSteps(w, g, i, m);
    m' := if c.Some? then m.(pc := m.pc + 1, regs := m.regs[g.nextReg := c.value]) else m;
  }

  lemma WrapInRange(t: Ty, n: int)
    ensures InRange(t, Wrap(t, n))
  {
  }

  /** Sign extension keeps the value: it is already in the range of the wider type. */
  lemma Widens(from: Ty, to: Ty, n: int)
    requires from.IsInt() && to.IsInt() && from.Bits() <= to.Bits() && InRange(from, n)
    ensures Wrap(to, n) == n
  {
  }

  /** What each conversion instruction does is what the conversion means. */
  lemma CastConverts(fu: FloatUnit, kind: CastKind, from: Ty, to: Ty, n: int)
    requires InRange(from, n) && Convertible(from, to) && !from.Ptr? && from != to
    requires kind == CastFor(from, to)
    ensures ApplyCast(fu, kind, from, to, n) == Convert(fu, from, to, n)
    ensures var c := Convert(fu, from, to, n); c.Some? ==> InRange(to, c.value)
  {
    if kind == SExt { Widens(from, to, n); }
    if from.IsInt() { WrapInRange(to, n); }
    if kind == FPToSI && fu.toInt(from, n).Some? { WrapInRange(to, fu.toInt(from, n).value); }
  }

  function CastFor(from: Ty, to: Ty): CastKind {
    if from.IsInt() && to.IsInt() then (if from.Bits() < to.Bits() then SExt else Trunc)
    else if from.IsFloat() && to.IsInt() then FPToSI
    else if from.IsInt() then SIToFP
    else FPCast
  }

  lemma ConvertComputes(w: World, g: Gen, v: Operand, ty: Ty, fail: CgError, n: int, m: MState)
    returns (k: nat, m': MState)
    requires Ready(g) && At(g, m) && EnsureType(g, v, ty, fail).Ok?
    requires Within(EnsureType(g, v, ty, fail).value.0, w.code)
    requires OperandValue(w.args, m, v) == Some(n) && InRange(v.ty, n)
    ensures var (g', o) := EnsureType(g, v, ty, fail).value;
            Computes(w, g', o, m, m', g.nextReg, k, ConvertTo(w.cx.env.fu, Value(v.ty, n, m.trace), ty))
  {
    if v.ty == ty {
      k, m' := 0, m;
    } else {
      var kind := CastFor(v.ty, ty);
      var i := Cast(g.nextReg, kind, v, ty);
      assert EnsureType(g, v, ty, fail).value == (Define(g, i), Reg(ty, g.nextReg));
      CastConverts(w.cx.env.fu, kind, v.ty, ty, n);
      k := 1;
      m' := DefineComputes(w, g, i, ty, Convert(w.cx.env.fu, v.ty, ty, n), m);
    }
  }

  // ----- operators -----

  function PredFor(op: Op, ty: Ty): Option<Pred> { if ty.IsInt() then IntPred(op) else FloatPred(op) }

  function BinFor(op: Op, ty: Ty): Option<BinOp> { if ty.IsInt() then IntBinOp(op) else FloatBinOp(op) }

  lemma CompareApplies(fu: FloatUnit, op: Op, ty: Ty, a: int, b: int, t: seq<Event>)
    requires IsComparison(op) && (ty.IsInt() || ty.IsFloat())
    ensures PredFor(op, ty).Some?
    ensures Operate(fu, op, ty, a, b, t) == Outcome1(I1, ApplyCmp(fu, PredFor(op, ty).value, ty, a, b), t)
  {
  }

  lemma CompareInRange(fu: FloatUnit, p: Pred, ty: Ty, a: int, b: int)
    ensures var c := ApplyCmp(fu, p, ty, a, b); c.Some? ==> InRange(I1, c.value)
  {
  }

  lemma ArithApplies(fu: FloatUnit, op: Op, ty: Ty, a: int, b: int, t: seq<Event>)
    requires !IsComparison(op) && (ty.IsInt() || (ty.IsFloat() && !op.SHL? && !op.SHR?))
    ensures BinFor(op, ty).Some?
    ensures Operate(fu, op, ty, a, b, t) == Outcome1(ty, ApplyBin(fu, BinFor(op, ty).value, ty, a, b), t)
  {
    hide Wrap, Pow2, TruncDiv;
  }

  lemma ArithInRange(fu: FloatUnit, op: Op, ty: Ty, a: int, b: int)
    requires !IsComparison(op) && BinFor(op, ty).Some? && (ty.IsInt() || ty.IsFloat())
    ensures var c := ApplyBin(fu, BinFor(op, ty).value, ty, a, b); c.Some? ==> InRange(ty, c.value)
  {
    hide Wrap, Pow2, TruncDiv;
    forall n
      ensures InRange(ty, Wrap(ty, n)) && (ty.IsFloat() ==> Wrap(ty, n) == n)
    {
      WrapInRange(ty, n);
      WrapFloat(ty, n);
    }
  }

  lemma WrapFloat(ty: Ty, n: int)
    ensures ty.IsFloat() ==> Wrap(ty, n) == n
  {
  }

  function Compared(g: Gen, p: Pred, a: Operand, b: Operand): (Gen, Val)
    requires Ready(g)
  {
    (Define(g, Cmp(g.nextReg, p, a, b)), Val(Reg(I1, g.nextReg), true))
  }

  function Operated(g: Gen, o: BinOp, ty: Ty, a: Operand, b: Operand): (Gen, Val)
    requires Ready(g)
  {
    (Define(g, Bin(g.nextReg, o, a, b)), Val(Reg(ty, g.nextReg), false))
  }

  /** One instruction for one operator. */
  lemma OpShape(g: Gen, op: Op, ty: Ty, a: Operand, b: Operand)
    requires Ready(g) && GenOp(g, op, ty, a, b).Ok?
    ensures ty.IsInt() || (ty.IsFloat() && !op.SHL? && !op.SHR?)
    ensures IsComparison(op) ==> PredFor(op, ty).Some? && GenOp(g, op, ty, a, b).value == Compared(g, PredFor(op, ty).value, a, b)
    ensures !IsComparison(op) ==> BinFor(op, ty).Some? && GenOp(g, op, ty, a, b).value == Operated(g, BinFor(op, ty).value, ty, a, b)
  {
    hide Define;
  }

  lemma CmpRuns(w: World, d: nat, p: Pred, a: Operand, b: Operand, x: int, y: int, m: MState)
    requires OperandValue(w.args, m, a) == Some(x) && OperandValue(w.args, m, b) == Some(y)
    ensures ExecInstr(w.cx.env, w.args, Cmp(d, p, a, b), m) == SetReg(m, d, ApplyCmp(w.cx.env.fu, p, a.ty, x, y))
  {
  }

  lemma BinRuns(w: World, d: nat, op: BinOp, a: Operand, b: Operand, x: int, y: int, m: MState)
    requires OperandValue(w.args, m, a) == Some(x) && OperandValue(w.args, m, b) == Some(y)
    ensures ExecInstr(w.cx.env, w.args, Bin(d, op, a, b), m) == SetReg(m, d, ApplyBin(w.cx.env.fu, op, a.ty, x, y))
  {
  }

  lemma OpComputes(w: World, g: Gen, op: Op, ty: Ty, a: Operand, b: Operand, x: int, y: int, m: MState)
    returns (k: nat, m': MState)
    requires Ready(g) && At(g, m) && GenOp(g, op, ty, a, b).Ok? && a.ty == ty && b.ty == ty
    requires Within(GenOp(g, op, ty, a, b).value.0, w.code)
    requires OperandValue(w.args, m, a) == Some(x) && OperandValue(w.args, m, b) == Some(y)
    ensures var (g', v) := GenOp(g, op, ty, a, b).value;
            Computes(w, g', v.op, m, m', g.nextReg, k, Operate(w.cx.env.fu, op, ty, x, y, m.trace))
  {
    hide Wrap, InRange, ApplyBin, ApplyCmp, Operate, GenOp, ExecInstr, PredFor, BinFor, Computes, Within, IsComparison;
    var fu, d := w.cx.env.fu, g.nextReg;
    OpShape(g, op, ty, a, b);
    k := 1;
    if IsComparison(op) {
      var p := PredFor(op, ty).value;
      CompareApplies(fu, op, ty, x, y, m.trace);
      CompareInRange(fu, p, ty, x, y);
      CmpRuns(w, d, p, a, b, x, y, m);
      m' := DefineComputes(w, g, Cmp(d, p, a, b), I1, ApplyCmp(fu, p, ty, x, y), m);
    } else {
      var o := BinFor(op, ty).value;
      ArithApplies(fu, op, ty, x, y, m.trace);
      ArithInRange(fu, op, ty, x, y);
      BinRuns(w, d, o, a, b, x, y, m);
      m' := DefineComputes(w, g, Bin(d, o, a, b), ty, ApplyBin(fu, o, ty, x, y), m);
    }
  }

  lemma OperandKept(w: World, v: Operand, n: nat, m: MState, m': MState)
    requires Defined(v, v.ty, n) && KeepsRegs(m, m', n) && OperandValue(w.args, m, v).Some?
    ensures OperandValue(w.args, m', v) == OperandValue(w.args, m, v)
  {
  }

  /** Both operands converted, one after the other: the first failure is what counts. */
  lemma OperandsConvert(w: World, g: Gen, ty: Ty, l: Operand, r: Operand, x: int, y: int, m: MState)
    returns (k: nat, m': MState)
    requires Ready(g) && At(g, m) && EnsureType(g, l, ty, InternalError).Ok?
    requires var (g1, a) := EnsureType(g, l, ty, InternalError).value;
             EnsureType(g1, r, ty, InternalError).Ok? && Within(EnsureType(g1, r, ty, InternalError).value.0, w.code)
    requires Defined(l, l.ty, g.nextReg) && Defined(r, r.ty, g.nextReg)
    requires OperandValue(w.args, m, l) == Some(x) && OperandValue(w.args, m, r) == Some(y)
    requires InRange(l.ty, x) && InRange(r.ty, y)
    ensures var (g1, a) := EnsureType(g, l, ty, InternalError).value;
            var (g2, b) := EnsureType(g1, r, ty, InternalError).value;
            var av := ConvertTo(w.cx.env.fu, Value(l.ty, x, m.trace), ty);
            var bv := ConvertTo(w.cx.env.fu, Value(r.ty, y, m.trace), ty);
            && Computes(w, g2, b, m, m', g.nextReg, k, if av.Halt? then av else bv)
            && (av.Value? && bv.Value? ==> OperandValue(w.args, m', a) == Some(av.n))
  {
    hide ExecInstr, Wrap, EnsureType, ConvertTo, Within;
    var (g1, a) := EnsureType(g, l, ty, InternalError).value;
    var (g2, b) := EnsureType(g1, r, ty, InternalError).value;
    WithinAppends(g1, g2, w.code);
    ConvertTrace(w.cx.env.fu, Value(l.ty, x, m.trace), ty);
    var k1, m1 := ConvertComputes(w, g, l, ty, InternalError, x, m);
    k, m' := k1, m1;
    if ConvertTo(w.cx.env.fu, Value(l.ty, x, m.trace), ty).Value? {
      OperandKept(w, r, g.nextReg, m, m1);
      var k2, m2 := ConvertComputes(w, g1, r, ty, InternalError, y, m1);
      var bv := ConvertTo(w.cx.env.fu, Value(r.ty, y, m.trace), ty);
      ThenComputes(w, g1, g2, b, m, m1, m2, g.nextReg, g1.nextReg, k1, k2, bv);
      k, m' := k1 + k2, m2;
      if bv.Value? { OperandKept(w, a, g1.nextReg, m1, m2); }
    }
  }

  lemma CombineMeaning(cx: Ctx, op: Op, ty: Ty, lt: Ty, x: int, rt: Ty, y: int, t: seq<Event>)
    ensures var a := ConvertTo(cx.env.fu, Value(lt, x, t), ty);
            var b := ConvertTo(cx.env.fu, Value(rt, y, t), ty);
            Combine(cx, op, ty, lt, x, rt, y, t) ==
              if a.Halt? then a else if b.Halt? then b else Operate(cx.env.fu, op, ty, a.n, b.n, t)
  {
  }

  lemma ConvertTrace(fu: FloatUnit, v: Eval, ty: Ty)
    ensures ConvertTo(fu, v, ty).trace == v.trace
  {
  }

  lemma OperationComputes(w: World, g: Gen, op: Op, ty: Ty, l: Operand, r: Operand, x: int, y: int, m: MState)
    returns (k: nat, m': MState)
    requires Ready(g) && At(g, m) && GenOperation(g, op, ty, l, r).Ok?
    requires Within(GenOperation(g, op, ty, l, r).value.0, w.code)
    requires Defined(l, l.ty, g.nextReg) && Defined(r, r.ty, g.nextReg)
    requires OperandValue(w.args, m, l) == Some(x) && OperandValue(w.args, m, r) == Some(y)
    requires InRange(l.ty, x) && InRange(r.ty, y)
    ensures var (g', v) := GenOperation(g, op, ty, l, r).value;
            Computes(w, g', v.op, m, m', g.nextReg, k,
                     Combine(w.cx, op, ty, l.ty, x, r.ty, y, m.trace))
  {
    hide ExecInstr, Wrap, EnsureType, GenOp, Operate, ConvertTo, Combine, Within;
    CombineMeaning(w.cx, op, ty, l.ty, x, r.ty, y, m.trace);
    var (g1, a) := EnsureType(g, l, ty, InternalError).value;
    var (g2, b) := EnsureType(g1, r, ty, InternalError).value;
    var (g3, v) := GenOp(g2, op, ty, a, b).value;
    var av := ConvertTo(w.cx.env.fu, Value(l.ty, x, m.trace), ty);
    var bv := ConvertTo(w.cx.env.fu, Value(r.ty, y, m.trace), ty);
    WithinAppends(g2, g3, w.code);
    var k2, m2 := OperandsConvert(w, g, ty, l, r, x, y, m);
    k, m' := k2, m2;
    ConvertTrace(w.cx.env.fu, Value(r.ty, y, m.trace), ty);
    if av.Value? && bv.Value? {
      var k3, m3 := OpComputes(w, g2, op, ty, a, b, av.n, bv.n, m2);
      ThenComputes(w, g2, g3, v.op, m, m2, m3, g.nextReg, g2.nextReg, k2, k3,
                   Operate(w.cx.env.fu, op, ty, av.n, bv.n, m.trace));
      k, m' := k2 + k3, m3;
    }
  }

  // ----- expressions -----

  predicate ComputesArgs(w: World, g: Gen, ops: seq<Operand>, m: MState, m': MState, lo: nat, k: nat, res: EvalArgs)
    requires Ready(g)
  {
    match res
    case Values(vs, t) =>
      && Go(w, m, k) == Live(m') && Ran(g, m, m', lo) && m'.pc == m.pc + k && m'.trace == t
      && OperandValues(w.args, m', ops) == Some(vs)
    case ArgsHalt(o, t) => HaltsAs(w, m, k, o, t) && m.pc + k <= |g.blocks[g.cur]|
  }

  lemma {:induction false} ExprComputes(w: World, g: Gen, e: Expr, fr: Frame, m: MState)
    returns (k: nat, m': MState)
    requires Ready(g) && At(g, m) && GenExpr(w.cx.sigs, g, e).Ok?
    requires Within(GenExpr(w.cx.sigs, g, e).value.0, w.code) && Agree(g.scopes, fr, m.mem)
    ensures var (g', v) := GenExpr(w.cx.sigs, g, e).value;
            Computes(w, g', v.op, m, m', g.nextReg, k, EvalExpr(w.cx, fr, e, m.trace))
    decreases e, 2
  {
    match e
    case IntLit(n) =>
      WrapInRange(I32, n);
      k, m' := 0, m;
    case FloatLit(_) => k, m' := 0, m;
    case Identifier(x) => k, m' := VariableComputes(w, g, x, fr, m);
    case Binary(_, _, _, _) => k, m' := BinaryComputes(w, g, e, fr, m);
    case Call(_, _) => k, m' := CallComputes(w, g, e, fr, m);
  }

  lemma VariableComputes(w: World, g: Gen, x: string, fr: Frame, m: MState)
    returns (k: nat, m': MState)
    requires Ready(g) && At(g, m) && Level(g.scopes, x).Some? && Agree(g.scopes, fr, m.mem)
    requires Within(GenExpr(w.cx.sigs, g, Identifier(x)).value.0, w.code)
    ensures var (g', v) := GenExpr(w.cx.sigs, g, Identifier(x)).value;
            Computes(w, g', v.op, m, m', g.nextReg, k, EvalExpr(w.cx, fr, Identifier(x), m.trace))
  {
    SameLevel(g.scopes, fr, x);
    var l := Level(g.scopes, x).value;
    var b, c := g.scopes[l][x], fr[l][x];
    assert SlotHolds(b, c, m.mem);
    k, m' := 1, m;
    if !c.val.Missing? {
      var n := if c.val.Def? then Some(c.val.n) else None;
      m' := DefineComputes(w, g, Load(g.nextReg, b.ty, b.val), b.ty, n, m);
    }
  }

  /** Left operand, then right operand; the left value survives the right one's code. */
  lemma {:induction false} OperandsCompute(w: World, g: Gen, e: Expr, fr: Frame, m: MState)
    returns (k: nat, m': MState)
    requires Ready(g) && At(g, m) && e.Binary? && GenExpr(w.cx.sigs, g, e.left).Ok?
    requires var (g1, lv) := GenExpr(w.cx.sigs, g, e.left).value;
             GenExpr(w.cx.sigs, g1, e.right).Ok? && Within(GenExpr(w.cx.sigs, g1, e.right).value.0, w.code)
    requires Agree(g.scopes, fr, m.mem)
    ensures var (g1, lv) := GenExpr(w.cx.sigs, g, e.left).value;
            var (g2, rv) := GenExpr(w.cx.sigs, g1, e.right).value;
            var l := EvalExpr(w.cx, fr, e.left, m.trace);
            var r := EvalExpr(w.cx, fr, e.right, l.trace);
            && Computes(w, g2, rv.op, m, m', g.nextReg, k, if l.Halt? then l else r)
            && (l.Value? && r.Value? ==> lv.op.ty == l.ty && InRange(l.ty, l.n) && OperandValue(w.args, m', lv.op) == Some(l.n))
    decreases e, 0
  {
    hide ExecInstr, Wrap, EvalExpr, GenExpr;
    var (g1, lv) := GenExpr(w.cx.sigs, g, e.left).value;
    var (g2, rv) := GenExpr(w.cx.sigs, g1, e.right).value;
    var k1, m1 := ExprComputes(w, g, e.left, fr, m);
    var l := EvalExpr(w.cx, fr, e.left, m.trace);
    if l.Halt? {
      k, m' := k1, m1;
      assert Computes(w, g2, rv.op, m, m', g.nextReg, k, l);
    } else {
      var k2, m2 := ExprComputes(w, g1, e.right, fr, m1);
      var r := EvalExpr(w.cx, fr, e.right, l.trace);
      ThenComputes(w, g1, g2, rv.op, m, m1, m2, g.nextReg, g1.nextReg, k1, k2, r);
      k, m' := k1 + k2, m2;
      assert Computes(w, g2, rv.op, m, m', g.nextReg, k, r);
      if r.Value? { OperandKept(w, lv.op, g1.nextReg, m1, m2); }
    }
  }

  lemma BinaryMeaning(cx: Ctx, fr: Frame, e: Expr, t: seq<Event>)
    requires e.Binary?
    ensures var l := EvalExpr(cx, fr, e.left, t);
            var r := EvalExpr(cx, fr, e.right, l.trace);
            var ty := CalcType(cx.sigs, fr, e);
            EvalExpr(cx, fr, e, t) ==
              if l.Halt? then l else if r.Halt? then r
              else if ty.Err? then Halt(IllFormed, r.trace)
              else Combine(cx, e.op, ty.value, l.ty, l.n, r.ty, r.n, r.trace)
  {
  }

  lemma {:induction false} BinaryComputes(w: World, g: Gen, e: Expr, fr: Frame, m: MState)
    returns (k: nat, m': MState)
    requires Ready(g) && At(g, m) && e.Binary? && GenBinary(w.cx.sigs, g, e).Ok?
    requires Within(GenBinary(w.cx.sigs, g, e).value.0, w.code) && Agree(g.scopes, fr, m.mem)
    ensures var (g', v) := GenBinary(w.cx.sigs, g, e).value;
            Computes(w, g', v.op, m, m', g.nextReg, k, EvalExpr(w.cx, fr, e, m.trace))
    decreases e, 1
  {
    hide ExecInstr, Combine, GenOperation, Wrap, EvalExpr, GenExpr, CalcType;
    var (g1, lv) := GenExpr(w.cx.sigs, g, e.left).value;
    var (g2, rv) := GenExpr(w.cx.sigs, g1, e.right).value;
    var (g3, v) := GenBinary(w.cx.sigs, g, e).value;
    var k2, m2 := OperandsCompute(w, g, e, fr, m);
    k, m' := k2, m2;
    var l := EvalExpr(w.cx, fr, e.left, m.trace);
    var r := EvalExpr(w.cx, fr, e.right, l.trace);
    var res := EvalExpr(w.cx, fr, e, m.trace);
    BinaryMeaning(w.cx, fr, e, m.trace);
    SameType(w.cx.sigs, g.scopes, fr, m.mem, e);
    if l.Halt? || r.Halt? {
      HaltComputes(w, g2, g3, rv.op, v.op, m, m2, g.nextReg, k2, res);
    } else {
      var ty := CalcType(w.cx.sigs, g2.scopes, e).value;
      var k3, m3 := OperationComputes(w, g2, e.op, ty, lv.op, rv.op, l.n, r.n, m2);
      ThenComputes(w, g2, g3, v.op, m, m2, m3, g.nextReg, g2.nextReg, k2, k3, res);
      k, m' := k2 + k3, m3;
    }
  }

  lemma CallShape(sigs: Sigs, g: Gen, e: Expr) returns (g1: Gen, ops: seq<Operand>)
    requires Ready(g) && e.Call? && GenCall(sigs, g, e).Ok?
    ensures e.fn in sigs && Ready(g1) && Appends(g, g1) && GenArgs(sigs, g, e.args, sigs[e.fn].params) == Ok((g1, ops))
    ensures var ret := sigs[e.fn].ret;
            GenCall(sigs, g, e) == Ok((Define(g1, CallFn(g1.nextReg, e.fn, ret, ops)), Val(Reg(ret, g1.nextReg), false)))
  {
    var r := GenArgs(sigs, g, e.args, sigs[e.fn].params).value;
    g1, ops := r.0, r.1;
  }

  lemma CallMeaning(cx: Ctx, fr: Frame, e: Expr, t: seq<Event>)
    requires e.Call? && e.fn in cx.sigs
    ensures var a := EvalActuals(cx, fr, e.args, cx.sigs[e.fn].params, t);
            EvalExpr(cx, fr, e, t) ==
              if a.ArgsHalt? then Halt(a.o, a.trace)
              else CallOutcome(e.fn, cx.sigs[e.fn].ret, a.vs, a.trace, cx.env.call(a.trace, e.fn, a.vs))
  {
  }

  /** The call itself: one instruction, and whatever the callee does. */
  lemma CallRuns(w: World, g: Gen, fn: string, ret: Ty, ops: seq<Operand>, vs: seq<int>, m: MState) returns (m': MState)
    requires Ready(g) && At(g, m) && Within(Define(g, CallFn(g.nextReg, fn, ret, ops)), w.code)
    requires OperandValues(w.args, m, ops) == Some(vs)
    ensures Computes(w, Define(g, CallFn(g.nextReg, fn, ret, ops)), Reg(ret, g.nextReg), m, m', g.nextReg, 1,
                     CallOutcome(fn, ret, vs, m.trace, w.cx.env.call(m.trace, fn, vs)))
  {
    hide Wrap, OperandValues;
    var i, r := CallFn(g.nextReg, fn, ret, ops), w.cx.env.call(m.trace, fn, vs);
    assert Define(g, i).blocks == Emit(g, i).blocks;
    EmitSteps(w, g, i, m);
    m' := m;
    if r.CallReturns? {
      WrapInRange(ret, r.n);
      m' := m.(pc := m.pc + 1, regs := m.regs[g.nextReg := Wrap(ret, r.n)], trace := m.trace + [EvCall(fn, vs)] + r.events);
    }
  }

  lemma {:induction false} CallComputes(w: World, g: Gen, e: Expr, fr: Frame, m: MState)
    returns (k: nat, m': MState)
    requires Ready(g) && At(g, m) && e.Call? && GenCall(w.cx.sigs, g, e).Ok?
    requires Within(GenCall(w.cx.sigs, g, e).value.0, w.code) && Agree(g.scopes, fr, m.mem)
    ensures var (g', v) := GenCall(w.cx.sigs, g, e).value;
            Computes(w, g', v.op, m, m', g.nextReg, k, EvalExpr(w.cx, fr, e, m.trace))
    decreases e, 0
  {
    hide ExecInstr, Wrap, GenCall, GenArgs, EvalExpr, EvalActuals, CallOutcome, Within;
    var g1, ops := CallShape(w.cx.sigs, g, e);
    var ret, params := w.cx.sigs[e.fn].ret, w.cx.sigs[e.fn].params;
    var g2 := Define(g1, CallFn(g1.nextReg, e.fn, ret, ops));
    WithinAppends(g1, g2, w.code);
    CallMeaning(w.cx, fr, e, m.trace);
    var k1, m1 := ArgsCompute(w, g, e.args, params, fr, m);
    k, m' := k1, m1;
    var a := EvalActuals(w.cx, fr, e.args, params, m.trace);
    if a.Values? {
      var res := CallOutcome(e.fn, ret, a.vs, a.trace, w.cx.env.call(a.trace, e.fn, a.vs));
      var m2 := CallRuns(w, g1, e.fn, ret, ops, a.vs, m1);
      ThenComputes(w, g1, g2, Reg(ret, g1.nextReg), m, m1, m2, g.nextReg, g1.nextReg, k1, 1, res);
      k, m' := k1 + 1, m2;
    }
  }

  lemma ThenComputesArgs(w: World, g1: Gen, g2: Gen, o: Operand, os: seq<Operand>, m: MState, m1: MState, m2: MState,
                         lo: nat, k1: nat, k2: nat, a: Eval, rest: EvalArgs)
    requires Ready(g1) && Ready(g2) && lo <= g1.nextReg && Defined(o, o.ty, g1.nextReg)
    requires a.Value? && Computes(w, g1, o, m, m1, lo, k1, a)
    requires ComputesArgs(w, g2, os, m1, m2, g1.nextReg, k2, rest)
    ensures ComputesArgs(w, g2, [o] + os, m, m2, lo, k1 + k2,
                         if rest.Values? then Values([a.n] + rest.vs, rest.trace) else rest)
  {
    hide ExecInstr;
    GoOn(w, m, m1, k1, k2);
    if rest.Values? {
      OperandKept(w, o, g1.nextReg, m1, m2);
      assert ([o] + os)[1..] == os;
    }
  }

  lemma {:induction false} ArgsCompute(w: World, g: Gen, args: seq<Expr>, params: seq<Ty>, fr: Frame, m: MState)
    returns (k: nat, m': MState)
    requires Ready(g) && At(g, m) && GenArgs(w.cx.sigs, g, args, params).Ok?
    requires Within(GenArgs(w.cx.sigs, g, args, params).value.0, w.code) && Agree(g.scopes, fr, m.mem)
    ensures var (g', ops) := GenArgs(w.cx.sigs, g, args, params).value;
            ComputesArgs(w, g', ops, m, m', g.nextReg, k, EvalActuals(w.cx, fr, args, params, m.trace))
    decreases args
  {
    hide ExecInstr, Wrap, EnsureType, ConvertTo, GenExpr, EvalExpr;
    k, m' := 0, m;
    if args != [] {
      var (g1, v) := GenExpr(w.cx.sigs, g, args[0]).value;
      var (g2, o) := EnsureType(g1, v.op, params[0], CannotPass).value;
      var (g3, os) := GenArgs(w.cx.sigs, g2, args[1..], params[1..]).value;
      var k2, m2 := ConvertedComputes(w, g, args[0], params[0], CannotPass, fr, m);
      k, m' := k2, m2;
      var a := ConvertTo(w.cx.env.fu, EvalExpr(w.cx, fr, args[0], m.trace), params[0]);
      if a.Value? {
        var k3, m3 := ArgsCompute(w, g2, args[1..], params[1..], fr, m2);
        var rest := EvalActuals(w.cx, fr, args[1..], params[1..], a.trace);
        ThenComputesArgs(w, g2, g3, o, os, m, m2, m3, g.nextReg, k2, k3, a, rest);
        k, m' := k2 + k3, m3;
      }
    }
  }

  /** An expression followed by the conversion of its value. */
  lemma {:induction false} ConvertedComputes(w: World, g: Gen, e: Expr, ty: Ty, fail: CgError, fr: Frame, m: MState)
    returns (k: nat, m': MState)
    requires Ready(g) && At(g, m) && GenExpr(w.cx.sigs, g, e).Ok?
    requires var (g1, v) := GenExpr(w.cx.sigs, g, e).value;
             EnsureType(g1, v.op, ty, fail).Ok? && Within(EnsureType(g1, v.op, ty, fail).value.0, w.code)
    requires Agree(g.scopes, fr, m.mem)
    ensures var (g1, v) := GenExpr(w.cx.sigs, g, e).value;
            var (g2, o) := EnsureType(g1, v.op, ty, fail).value;
            Computes(w, g2, o, m, m', g.nextReg, k, ConvertTo(w.cx.env.fu, EvalExpr(w.cx, fr, e, m.trace), ty))
    decreases e, 3
  {
    hide ExecInstr, Wrap, EvalExpr, GenExpr, Convert;
    var (g1, v) := GenExpr(w.cx.sigs, g, e).value;
    var (g2, o) := EnsureType(g1, v.op, ty, fail).value;
    var k1, m1 := ExprComputes(w, g, e, fr, m);
    k, m' := k1, m1;
    var res := EvalExpr(w.cx, fr, e, m.trace);
    if res.Value? {
      var k2, m2 := ConvertComputes(w, g1, v.op, ty, fail, res.n, m1);
      ThenComputes(w, g1, g2, o, m, m1, m2, g.nextReg, g1.nextReg, k1, k2, ConvertTo(w.cx.env.fu, res, ty));
      k, m' := k1 + k2, m2;
    }
  }
}
