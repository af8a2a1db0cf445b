/** What the types of the language hold, each by its own name: how a declared type is
    represented, and what a variable of that type is left with, in the source and in the
    generated code. */
module Lowering {
  import opened Ast
  import opened IR
  import opened Typing
  import opened Codegen
  import opened Source
  import opened SimExpr
  import opened SimStmt
  import Arithmetic
  import Numbers
  import Preservation

  /** Necchi has 32 bits, Mascetti 8 and Melandri one; Perozzi is a single precision number
      and Sassaroli a double precision one. */
  predicate Lowered(t: VarType, ty: Ty) {
    if t.pointer then ty.Ptr?
    else
      match t.base
      case VOID => ty.Void?
      case INTEGER => ty.I32?
      case CHAR => ty.I8?
      case BOOL => ty.I1?
      case FLOAT => ty.F32?
      case DOUBLE => ty.F64?
  }

  lemma LoweredTypes(t: VarType, ty: Ty)
    ensures Lowered(t, ty) <==> ty == IRType(t)
  {
  }

  /** Everywhere a type is lowered: the signature of a function. */
  predicate LoweredSig(f: Function, s: Sig) {
    && Lowered(f.ret, s.ret) && |s.params| == |f.params|
    && forall k | 0 <= k < |f.params| :: Lowered(f.params[k].ty, s.params[k])
  }

  lemma LoweredSignature(f: Function)
    ensures LoweredSig(f, SigOf(f))
  {
    hide Lowered, IRType;
    LoweredTypes(f.ret, IRType(f.ret));
    forall k | 0 <= k < |f.params| ensures Lowered(f.params[k].ty, IRType(f.params[k].ty)) {
      LoweredTypes(f.params[k].ty, IRType(f.params[k].ty));
    }
  }

  /** Everything the language calls a value of a type. */
  predicate ValueOf(t: VarType, n: int) {
    !t.pointer ==>
      match t.base
      case INTEGER => -0x8000_0000 <= n <= 0x7fff_ffff
      case CHAR => -128 <= n <= 127
      case BOOL => -1 <= n <= 0
      case _ => true
  }

  /** Arguments fit a function exactly when they are as many as its parameters and each is a
      value of the type of its own. */
  lemma ArgumentsFit(f: Function, args: seq<int>)
    ensures Preservation.Fits(f, args) <==> |args| == |f.params| && forall i | 0 <= i < |args| :: ValueOf(f.params[i].ty, args[i])
  {
    hide ValueOf, InRange, IRType;
    forall i | 0 <= i < |args| && i < |f.params|
      ensures InRange(IRType(f.params[i].ty), args[i]) <==> ValueOf(f.params[i].ty, args[i])
    {
      RangeOf(f.params[i].ty, args[i]);
    }
  }

  lemma RangeOf(t: VarType, n: int)
    ensures InRange(IRType(t), n) <==> ValueOf(t, n)
  {
  }

  /** What is left of the whole number `n` in a variable. */
  predicate HoldsWhole(t: BaseType, n: int, k: int) {
    match t
    case INTEGER => -0x8000_0000 <= k <= 0x7fff_ffff && (n - k) % 0x1_0000_0000 == 0
    case CHAR => -128 <= k <= 127 && (n - k) % 256 == 0
    case BOOL => -1 <= k <= 0 && (n - k) % 2 == 0
    case _ => false
  }

  /** What is left of a value of type `ty`: a Perozzi or a Sassaroli keeps a value of its own
      precision bit by bit, and a whole number keeps the bits it has room for. */
  predicate Holds(fu: FloatUnit, t: BaseType, ty: Ty, n: int, k: int) {
    match t
    case FLOAT => k == (if ty.F32? then n else if ty.F64? then fu.cast(F64, F32, n) else fu.fromInt(F32, n))
    case DOUBLE => k == (if ty.F64? then n else if ty.F32? then fu.cast(F32, F64, n) else fu.fromInt(F64, n))
    case _ =>
      if ty.IsFloat() then fu.toInt(ty, n).Some? && HoldsWhole(t, fu.toInt(ty, n).value, k) else HoldsWhole(t, n, k)
  }

  /** A value that a variable of type `t` can be given: only a floating point value may fail
      to fit, and only a whole number type. */
  predicate Fitting(fu: FloatUnit, t: BaseType, v: Eval) {
    && v.Value? && (v.ty.IsInt() || v.ty.IsFloat()) && InRange(v.ty, v.n)
    && (v.ty.IsFloat() && t in {BaseType.INTEGER, CHAR, BOOL} ==> fu.toInt(v.ty, v.n).Some?)
  }

  lemma WrapHolds(t: BaseType, ty: Ty, n: int)
    requires Lowered(VarType(t, false), ty) && t in {BaseType.INTEGER, CHAR, BOOL}
    ensures HoldsWhole(t, n, Wrap(ty, n))
  {
    hide Wrap, Pow2;
    Numbers.WrapReduces(ty, n, Wrap(ty, n));
    Numbers.Powers();
  }

  lemma ConvertHolds(fu: FloatUnit, t: BaseType, ty: Ty, v: Eval)
    requires t != VOID && Lowered(VarType(t, false), ty) && Fitting(fu, t, v)
    ensures var r := ConvertTo(fu, v, ty); r.Value? && r.ty == ty && r.trace == v.trace && Holds(fu, t, v.ty, v.n, r.n)
  {
    hide Wrap, HoldsWhole;
    if t in {BaseType.INTEGER, CHAR, BOOL} {
      if v.ty.IsFloat() {
        WrapHolds(t, ty, fu.toInt(v.ty, v.n).value);
      } else {
        WrapHolds(t, ty, v.n);
        assert v.ty == ty ==> Wrap(ty, v.n) == v.n;
      }
    }
  }

  // ----- declarations -----

  /** In the source: a declared variable holds what is left of its initialiser. */
  lemma DeclaredHolds(cx: Ctx, fr: Frame, x: string, t: BaseType, ty: Ty, e: Expr, tr: seq<Event>, fuel: nat) returns (k: int)
    requires fr != [] && x !in fr[|fr| - 1] && Lowered(VarType(t, false), ty)
    requires t != VOID && Fitting(cx.env.fu, t, EvalExpr(cx, Bind(fr, x, Binding(ty, Undef)), e, tr))
    ensures var v := EvalExpr(cx, Bind(fr, x, Binding(ty, Undef)), e, tr);
            && ExecStmt(cx, fr, Vardecl(x, VarType(t, false), Some(e)), tr, fuel) == Normal(Bind(fr, x, Binding(ty, Def(k))), v.trace)
            && Holds(cx.env.fu, t, v.ty, v.n, k)
  {
    hide EvalExpr, ConvertTo, Holds, Fitting, Lowered, IRType, ExecVardecl;
    LoweredTypes(VarType(t, false), ty);
    NotVoid(t, ty);
    VardeclMeaning(cx, fr, x, ty, e, tr);
    var v := EvalExpr(cx, Bind(fr, x, Binding(ty, Undef)), e, tr);
    ConvertHolds(cx.env.fu, t, ty, v);
    k := ConvertTo(cx.env.fu, v, ty).n;
  }

  lemma NotVoid(t: BaseType, ty: Ty)
    requires Lowered(VarType(t, false), ty)
    ensures ty.Void? <==> t == VOID
  {
  }

  /** In the code: so does its slot. */
  lemma DeclaredSlotHolds(w: World, g: Gen, g': Gen, x: string, t: BaseType, ty: Ty, e: Expr, fr: Frame, m: MState)
    returns (steps: nat, m': MState, k: int)
    requires Sound(w.cx.ret, g) && Simulates(w, g, m, fr, m.trace) && Lowered(VarType(t, false), ty)
    requires GenStmt(w.cx.sigs, g, Vardecl(x, VarType(t, false), Some(e))) == Ok(g') && Within(g', w.code)
    requires fr != [] && x !in fr[|fr| - 1]
    requires t != VOID && Fitting(w.cx.env.fu, t, EvalExpr(w.cx, Bind(fr, x, Binding(ty, Undef)), e, m.trace))
    ensures var v := EvalExpr(w.cx, Bind(fr, x, Binding(ty, Undef)), e, m.trace);
            Go(w, m, steps) == Live(m') && m'.trace == v.trace && Holds(w.cx.env.fu, t, v.ty, v.n, k)
    ensures Simulates(w, g', m', Bind(fr, x, Binding(ty, Def(k))), m'.trace)
    ensures g'.scopes != [] && x in g'.scopes[|g'.scopes| - 1]
    ensures var slot := g'.scopes[|g'.scopes| - 1][x].val; slot in m'.mem && m'.mem[slot] == Cell(ty, Some(k))
  {
    hide ExecInstr, EvalExpr, ConvertTo, Holds, Fitting, Lowered, IRType, Sound, Agree, At, ResultHolds, ExecStmt, Within, GenVardecl;
    LoweredTypes(VarType(t, false), ty);
    k := DeclaredHolds(w.cx, fr, x, t, ty, e, m.trace, 0);
    steps := StmtSim(w, g, g', Vardecl(x, VarType(t, false), Some(e)), fr, m, 0);
    m' := Go(w, m, steps).m;
    TopHolds(w, g', m', fr, x, ty, k);
  }

  lemma TopHolds(w: World, g: Gen, m: MState, fr: Frame, x: string, ty: Ty, k: int)
    requires fr != [] && Simulates(w, g, m, Bind(fr, x, Binding(ty, Def(k))), m.trace)
    ensures g.scopes != [] && x in g.scopes[|g.scopes| - 1]
    ensures var slot := g.scopes[|g.scopes| - 1][x].val; slot in m.mem && m.mem[slot] == Cell(ty, Some(k))
  {
    var fr1, last := Bind(fr, x, Binding(ty, Def(k))), |fr| - 1;
    assert x in fr1[last] && fr1[last][x] == Binding(ty, Def(k));
    assert SlotHolds(g.scopes[last][x], fr1[last][x], m.mem);
  }

  // ----- assignments -----

  /** In the source: so is an assigned one. */
  lemma AssignedHolds(cx: Ctx, fr: Frame, x: string, t: BaseType, e: Expr, tr: seq<Event>, fuel: nat) returns (k: int)
    requires Level(fr, x).Some? && !fr[Level(fr, x).value][x].val.Missing?
    requires t != VOID && Lowered(VarType(t, false), fr[Level(fr, x).value][x].ty) && Fitting(cx.env.fu, t, EvalExpr(cx, fr, e, tr))
    ensures var v := EvalExpr(cx, fr, e, tr);
            && ExecStmt(cx, fr, Assign(x, e), tr, fuel) == Normal(SetVar(fr, Level(fr, x).value, x, Def(k)), v.trace)
            && Holds(cx.env.fu, t, v.ty, v.n, k)
  {
    hide EvalExpr, ConvertTo, Holds, Fitting, Lowered, ExecAssign;
    AssignMeaning(cx, fr, x, e, tr);
    var ty := fr[Level(fr, x).value][x].ty;
    ConvertHolds(cx.env.fu, t, ty, EvalExpr(cx, fr, e, tr));
    k := ConvertTo(cx.env.fu, EvalExpr(cx, fr, e, tr), ty).n;
  }

  /** In the code. */
  lemma AssignedSlotHolds(w: World, g: Gen, g': Gen, x: string, t: BaseType, e: Expr, fr: Frame, m: MState)
    returns (steps: nat, m': MState, k: int)
    requires Sound(w.cx.ret, g) && Simulates(w, g, m, fr, m.trace)
    requires GenStmt(w.cx.sigs, g, Assign(x, e)) == Ok(g') && Within(g', w.code)
    requires Level(fr, x).Some? && !fr[Level(fr, x).value][x].val.Missing?
    requires t != VOID && Lowered(VarType(t, false), fr[Level(fr, x).value][x].ty)
    requires Fitting(w.cx.env.fu, t, EvalExpr(w.cx, fr, e, m.trace))
    ensures var v := EvalExpr(w.cx, fr, e, m.trace);
            Go(w, m, steps) == Live(m') && m'.trace == v.trace && Holds(w.cx.env.fu, t, v.ty, v.n, k)
    ensures Simulates(w, g', m', SetVar(fr, Level(fr, x).value, x, Def(k)), m'.trace)
    ensures Level(g'.scopes, x).Some?
    ensures var b := g'.scopes[Level(g'.scopes, x).value][x];
            b.val in m'.mem && m'.mem[b.val] == Cell(fr[Level(fr, x).value][x].ty, Some(k))
  {
    hide ExecInstr, EvalExpr, ConvertTo, Holds, Fitting, Lowered, Sound, Agree, At, ResultHolds, ExecStmt, Within, GenAssign, Level;
    k := AssignedHolds(w.cx, fr, x, t, e, m.trace, 0);
    steps := StmtSim(w, g, g', Assign(x, e), fr, m, 0);
    m' := Go(w, m, steps).m;
    VariableSet(w, g', m', fr, Level(fr, x).value, x, k);
  }

  lemma VariableSet(w: World, g: Gen, m: MState, fr: Frame, i: nat, x: string, k: int)
    requires Level(fr, x) == Some(i) && Simulates(w, g, m, SetVar(fr, i, x, Def(k)), m.trace)
    ensures Level(g.scopes, x) == Some(i) && i < |g.scopes|
    ensures var b := g.scopes[i][x]; b.val in m.mem && m.mem[b.val] == Cell(fr[i][x].ty, Some(k))
  {
    var fr1 := SetVar(fr, i, x, Def(k));
    forall j | 0 <= j < |fr| ensures fr1[j].Keys == fr[j].Keys {}
    SameLevel(fr1, fr, x);
    SameLevel(g.scopes, fr1, x);
    assert SlotHolds(g.scopes[i][x], fr1[i][x], m.mem);
  }

  // ----- results and input -----

  /** In the source: what a function returns is what is left of the value in its result type. */
  lemma ReturnedHolds(cx: Ctx, fr: Frame, t: BaseType, e: Expr, tr: seq<Event>, fuel: nat) returns (k: int)
    requires t != VOID && Lowered(VarType(t, false), cx.ret) && Fitting(cx.env.fu, t, EvalExpr(cx, fr, e, tr))
    ensures var v := EvalExpr(cx, fr, e, tr);
            && ExecStmt(cx, fr, Return(Some(e)), tr, fuel) == Leaving(Some(k), v.trace)
            && Holds(cx.env.fu, t, v.ty, v.n, k)
  {
    hide EvalExpr, ConvertTo, Holds, Fitting, Lowered;
    ConvertHolds(cx.env.fu, t, cx.ret, EvalExpr(cx, fr, e, tr));
    k := ConvertTo(cx.env.fu, EvalExpr(cx, fr, e, tr), cx.ret).n;
  }

  /** What is left of what was read: a whole number is reduced, anything else kept. */
  predicate HoldsInput(t: BaseType, n: int, k: int) {
    if t in {BaseType.INTEGER, CHAR} then HoldsWhole(t, n, k) else k == n
  }

  /** In the source: reading leaves in the variable what there is room for, or nothing new if
      nothing could be read. */
  lemma ReadHolds(cx: Ctx, fr: Frame, x: string, t: BaseType, tr: seq<Event>, fuel: nat) returns (k: int)
    requires Level(fr, x).Some? && !fr[Level(fr, x).value][x].val.Missing?
    requires t in {BaseType.INTEGER, CHAR, BaseType.FLOAT, DOUBLE} && Lowered(VarType(t, false), fr[Level(fr, x).value][x].ty)
    ensures var ty := fr[Level(fr, x).value][x].ty;
            var got := cx.env.input(tr, ty);
            && ExecStmt(cx, fr, Input(x), tr, fuel)
               == Normal(if got.Some? then SetVar(fr, Level(fr, x).value, x, Def(k)) else fr, tr + [EvRead(ty, got)])
            && (got.Some? ==> HoldsInput(t, got.value, k))
  {
    hide HoldsWhole, Wrap;
    var ty := fr[Level(fr, x).value][x].ty;
    var got := cx.env.input(tr, ty);
    k := if got.Some? then Wrap(ty, got.value) else 0;
    if got.Some? {
      if ty.IsInt() {
        WrapHolds(t, ty, got.value);
      } else {
        FractionKept(ty, got.value);
      }
    }
  }

  lemma FractionKept(ty: Ty, n: int)
    requires ty.IsFloat()
    ensures Wrap(ty, n) == n
  {
  }

  /** In the code: so it does in its slot. */
  lemma ReadSlotHolds(w: World, g: Gen, g': Gen, x: string, t: BaseType, fr: Frame, m: MState)
    returns (steps: nat, m': MState, k: int)
    requires Sound(w.cx.ret, g) && Simulates(w, g, m, fr, m.trace)
    requires GenStmt(w.cx.sigs, g, Input(x)) == Ok(g') && Within(g', w.code)
    requires Level(fr, x).Some? && !fr[Level(fr, x).value][x].val.Missing?
    requires t in {BaseType.INTEGER, CHAR, BaseType.FLOAT, DOUBLE} && Lowered(VarType(t, false), fr[Level(fr, x).value][x].ty)
    requires w.cx.env.input(m.trace, fr[Level(fr, x).value][x].ty).Some?
    ensures var got := w.cx.env.input(m.trace, fr[Level(fr, x).value][x].ty);
            && Go(w, m, steps) == Live(m') && m'.trace == m.trace + [EvRead(fr[Level(fr, x).value][x].ty, got)]
            && HoldsInput(t, got.value, k)
    ensures Level(g'.scopes, x).Some?
    ensures var b := g'.scopes[Level(g'.scopes, x).value][x];
            b.val in m'.mem && m'.mem[b.val] == Cell(fr[Level(fr, x).value][x].ty, Some(k))
  {
    hide ExecInstr, HoldsInput, Lowered, Sound, Agree, At, ResultHolds, ExecStmt, Within, GenInput, Level;
    k := ReadHolds(w.cx, fr, x, t, m.trace, 0);
    steps := StmtSim(w, g, g', Input(x), fr, m, 0);
    m' := Go(w, m, steps).m;
    VariableSet(w, g', m', fr, Level(fr, x).value, x, k);
  }

  // ----- exact results -----

  /** Sums, differences and products of any depth: what is left is the exact integer result
      reduced to the width of the variable. */
  lemma AssignedExactly(w: World, g: Gen, g': Gen, x: string, t: BaseType, e: Expr, fr: Frame, m: MState)
    returns (steps: nat, m': MState, k: int)
    requires Sound(w.cx.ret, g) && Simulates(w, g, m, fr, m.trace)
    requires GenStmt(w.cx.sigs, g, Assign(x, e)) == Ok(g') && Within(g', w.code)
    requires Level(fr, x).Some? && !fr[Level(fr, x).value][x].val.Missing?
    requires t in {BaseType.INTEGER, CHAR, BOOL} && Lowered(VarType(t, false), fr[Level(fr, x).value][x].ty)
    requires Arithmetic.Polynomial(fr, e) && Arithmetic.WideEnough(w.cx.sigs, fr, e, fr[Level(fr, x).value][x].ty)
    ensures Go(w, m, steps) == Live(m') && HoldsWhole(t, Arithmetic.ExactValue(fr, e), k)
    ensures Simulates(w, g', m', SetVar(fr, Level(fr, x).value, x, Def(k)), m.trace)
  {
    hide ExecInstr, Wrap, HoldsWhole, Sound, Simulates, Within, GenAssign, Arithmetic.Polynomial, Arithmetic.WideEnough;
    var ty := fr[Level(fr, x).value][x].ty;
    steps, m' := Arithmetic.AssignsExactly(w, g, g', x, e, fr, m);
    k := Wrap(ty, Arithmetic.ExactValue(fr, e));
    WrapHolds(t, ty, Arithmetic.ExactValue(fr, e));
  }

  // ----- literals -----

  /** A Sassaroli keeps the bits of a literal; a Perozzi is left with the literal in single
      precision. */
  lemma LiteralSlot(w: World, g: Gen, g': Gen, x: string, t: BaseType, bits: int, fr: Frame, m: MState)
    returns (steps: nat, m': MState)
    requires Sound(w.cx.ret, g) && Simulates(w, g, m, fr, m.trace) && fr != [] && x !in fr[|fr| - 1]
    requires t in {BaseType.FLOAT, DOUBLE}
    requires GenStmt(w.cx.sigs, g, Vardecl(x, VarType(t, false), Some(FloatLit(bits)))) == Ok(g') && Within(g', w.code)
    ensures Go(w, m, steps) == Live(m') && m'.trace == m.trace
    ensures g'.scopes != [] && x in g'.scopes[|g'.scopes| - 1]
    ensures var slot := g'.scopes[|g'.scopes| - 1][x].val;
            && slot in m'.mem
            && m'.mem[slot] == if t == DOUBLE then Cell(F64, Some(bits)) else Cell(F32, Some(w.cx.env.fu.cast(F64, F32, bits)))
  {
    hide ExecInstr, Sound, Simulates, Within, GenVardecl, GenStmt;
    var ty := if t == DOUBLE then F64 else F32;
    var k;
    steps, m', k := DeclaredSlotHolds(w, g, g', x, t, ty, FloatLit(bits), fr, m);
  }

  /** A whole number literal leaves what there is room for. */
  lemma WholeLiteralSlot(w: World, g: Gen, g': Gen, x: string, t: BaseType, n: Word, fr: Frame, m: MState)
    returns (steps: nat, m': MState, k: int)
    requires Sound(w.cx.ret, g) && Simulates(w, g, m, fr, m.trace) && fr != [] && x !in fr[|fr| - 1]
    requires t in {BaseType.INTEGER, CHAR, BOOL}
    requires GenStmt(w.cx.sigs, g, Vardecl(x, VarType(t, false), Some(IntLit(n)))) == Ok(g') && Within(g', w.code)
    ensures Go(w, m, steps) == Live(m') && m'.trace == m.trace && HoldsWhole(t, n, k)
    ensures g'.scopes != [] && x in g'.scopes[|g'.scopes| - 1]
    ensures var slot := g'.scopes[|g'.scopes| - 1][x].val; slot in m'.mem && m'.mem[slot].val == Some(k)
  {
    hide ExecInstr, Sound, Simulates, Within, GenVardecl, GenStmt, HoldsWhole, Wrap;
    var ty := if t == BaseType.INTEGER then I32 else if t == CHAR then I8 else I1;
    WrapInRange(I32, n);
    steps, m', k := DeclaredSlotHolds(w, g, g', x, t, ty, IntLit(n), fr, m);
    NarrowsTwice(t, n, k);
  }

  /** First to 32 bits, then to fewer. */
  lemma NarrowsTwice(t: BaseType, n: int, k: int)
    requires HoldsWhole(t, Wrap(I32, n), k)
    ensures HoldsWhole(t, n, k)
  {
    var w, d := Wrap(I32, n), (n + 0x8000_0000) / 0x1_0000_0000;
    assert n == w + d * 0x1_0000_0000;
    hide Wrap;
    match t
    case INTEGER => Numbers.SameRemainder(w - k, 0x1_0000_0000, d, n - k);
    case CHAR => Numbers.SameRemainder(w - k, 256, d * 0x100_0000, n - k);
    case BOOL => Numbers.SameRemainder(w - k, 2, d * 0x8000_0000, n - k);
    case _ =>
  }

  // ----- printing -----

  /** What is printed of a variable: Mascetti and Melandri as numbers without a sign, so a
      true Melandri is 1, and a Perozzi in double precision. */
  lemma PrintsVariable(cx: Ctx, fr: Frame, x: string, t: BaseType, k: int, tr: seq<Event>, fuel: nat)
    requires Level(fr, x).Some? && fr[Level(fr, x).value][x].val == Def(k) && t != VOID
    requires var ty := fr[Level(fr, x).value][x].ty; Lowered(VarType(t, false), ty) && InRange(ty, k)
    ensures var shown := match t
                         case INTEGER => k
                         case CHAR => if k < 0 then k + 256 else k
                         case BOOL => if k == 0 then 0 else 1
                         case FLOAT => cx.env.fu.cast(F32, F64, k)
                         case _ => k;
            ExecStmt(cx, fr, Print(Identifier(x)), tr, fuel) == Normal(fr, tr + [EvPrint(fr[Level(fr, x).value][x].ty, shown)])
  {
    assert EvalExpr(cx, fr, Identifier(x), tr) == Value(fr[Level(fr, x).value][x].ty, k, tr);
  }
}
