/** Wrapping arithmetic: sums, differences and products of integers may be truncated and
    sign-extended at every node, and still come out exact modulo the width they are stored
    in, as long as no operation is carried out in a narrower type. */
module Arithmetic {
  import opened Ast
  import opened IR
  import opened Typing
  import opened Codegen
  import opened Source
  import opened SimExpr
  import opened SimStmt

  /** `a` and `b` differ by a multiple of `m`. */
  ghost predicate Cong(m: int, a: int, b: int) { exists k :: Multiple(m, k) == a - b }

  function Multiple(m: int, k: int): int { k * m }

  lemma CongRefl(m: int, a: int)
    ensures Cong(m, a, a)
  {
    assert Multiple(m, 0) == a - a;
  }

  lemma CongTrans(m: int, a: int, b: int, c: int)
    requires Cong(m, a, b) && Cong(m, b, c)
    ensures Cong(m, a, c)
  {
    var k :| Multiple(m, k) == a - b;
    var l :| Multiple(m, l) == b - c;
    assert Multiple(m, k + l) == a - c;
  }

  lemma CongOps(m: int, a: int, b: int, c: int, d: int)
    requires Cong(m, a, b) && Cong(m, c, d)
    ensures Cong(m, a + c, b + d) && Cong(m, a - c, b - d) && Cong(m, a * c, b * d)
  {
    var k :| Multiple(m, k) == a - b;
    var l :| Multiple(m, l) == c - d;
    assert Multiple(m, k + l) == (a + c) - (b + d);
    assert Multiple(m, k - l) == (a - c) - (b - d);
    MultiplyOut(m, a, b, c, d, k, l);
    assert Multiple(m, k * c + b * l) == a * c - b * d;
  }

  lemma MultiplyOut(m: int, a: int, b: int, c: int, d: int, k: int, l: int)
    requires k * m == a - b && l * m == c - d
    ensures (k * c + b * l) * m == a * c - b * d
  {
    assert (k * c + b * l) * m == (k * m) * c + b * (l * m);
    assert (a - b) * c + b * (c - d) == a * c - b * d;
  }

  /** The number of values of an integer type. */
  function Modulus(t: Ty): int
    requires t.IsInt()
  {
    match t
    case I1 => 2
    case I8 => 0x100
    case I32 => 0x1_0000_0000
    case _ => 0x1_0000_0000_0000_0000
  }

  lemma WrapCong(t: Ty, n: int)
    requires t.IsInt()
    ensures Cong(Modulus(t), n, Wrap(t, n))
  {
    match t
    case I1 => assert Multiple(2, (n + 1) / 2) == n - Wrap(t, n);
    case I8 => assert Multiple(0x100, (n + 0x80) / 0x100) == n - Wrap(t, n);
    case I32 => assert Multiple(0x1_0000_0000, (n + 0x8000_0000) / 0x1_0000_0000) == n - Wrap(t, n);
    case I64 =>
      assert Multiple(0x1_0000_0000_0000_0000, (n + 0x8000_0000_0000_0000) / 0x1_0000_0000_0000_0000) == n - Wrap(t, n);
  }

  /** Congruence in a wider type is congruence in a narrower one. */
  lemma CongNarrows(wide: Ty, narrow: Ty, a: int, b: int)
    requires wide.IsInt() && narrow.IsInt() && narrow.Bits() <= wide.Bits() && Cong(Modulus(wide), a, b)
    ensures Cong(Modulus(narrow), a, b)
  {
    var k :| Multiple(Modulus(wide), k) == a - b;
    var q := Modulus(wide) / Modulus(narrow);
    assert q * Modulus(narrow) == Modulus(wide);
    assert Multiple(Modulus(narrow), k * q) == k * (q * Modulus(narrow));
  }

  lemma ModUnique(m: int, x: int, q: int, r: int)
    requires m > 0 && x == q * m + r && 0 <= r < m
    ensures x % m == r
  {
    var d := x / m - q;
    assert d * m == r - x % m;
    assert d == 0;
  }

  lemma ModShift(m: int, x: int, k: int)
    requires m > 0
    ensures (x + Multiple(m, k)) % m == x % m
  {
    assert x + k * m == (x / m + k) * m + x % m;
    ModUnique(m, x + k * m, x / m + k, x % m);
  }

  lemma WrapSame(t: Ty, a: int, b: int)
    requires t.IsInt() && Cong(Modulus(t), a, b)
    ensures Wrap(t, a) == Wrap(t, b)
  {
    hide Multiple;
    var k :| Multiple(Modulus(t), k) == a - b;
    var half := if t.I1? then 1 else Modulus(t) / 2;
    ModShift(Modulus(t), b + half, k);
    assert b + half + Multiple(Modulus(t), k) == a + half;
  }

  // ----- expressions -----

  /** Sums, differences and products of literals and integer variables that have a value. */
  predicate Polynomial(fr: Frame, e: Expr) {
    match e
    case IntLit(_) => true
    case Identifier(x) =>
      (match Level(fr, x)
       case Some(i) => fr[i][x].ty.IsInt() && fr[i][x].val.Def?
       case None => false)
    case Binary(op, l, r, _) => (op.PLUS? || op.MINUS? || op.TIMES?) && Polynomial(fr, l) && Polynomial(fr, r)
    case _ => false
  }

  /** The value over the integers. */
  function ExactValue(fr: Frame, e: Expr): int
    requires Polynomial(fr, e)
  {
    match e
    case IntLit(n) => n
    case Identifier(x) => fr[Level(fr, x).value][x].val.n
    case Binary(op, l, r, _) =>
      var a, b := ExactValue(fr, l), ExactValue(fr, r);
      if op.PLUS? then a + b else if op.MINUS? then a - b else a * b
  }

  /** No operation in the expression is carried out in a type narrower than `n`. */
  predicate WideEnough(sigs: Sigs, fr: Frame, e: Expr, n: Ty) {
    e.Binary? ==>
      && CalcType(sigs, fr, e).Ok? && n.Bits() <= CalcType(sigs, fr, e).value.Bits()
      && WideEnough(sigs, fr, e.left, n) && WideEnough(sigs, fr, e.right, n)
  }

  lemma {:induction false} PolynomialIsInt(sigs: Sigs, fr: Frame, e: Expr)
    requires Polynomial(fr, e)
    ensures CalcType(sigs, fr, e).Ok? && CalcType(sigs, fr, e).value.IsInt()
    decreases e
  {
    if e.Binary? {
      PolynomialIsInt(sigs, fr, e.left);
      PolynomialIsInt(sigs, fr, e.right);
    }
  }

  lemma ConvertCong(fu: FloatUnit, from: Ty, to: Ty, x: int, t: seq<Event>)
    requires from.IsInt() && to.IsInt()
    ensures ConvertTo(fu, Value(from, x, t), to).Value? && ConvertTo(fu, Value(from, x, t), to).trace == t
    ensures ConvertTo(fu, Value(from, x, t), to).ty == to
    ensures Cong(Modulus(to), x, ConvertTo(fu, Value(from, x, t), to).n)
  {
    WrapCong(to, x);
    CongRefl(Modulus(to), x);
  }

  /** The exact result of one operation on operands that are exact modulo `m`. */
  lemma OperationCong(cx: Ctx, op: Op, ty: Ty, n: Ty, lt: Ty, x: int, rt: Ty, y: int, a: int, b: int, t: seq<Event>)
    requires lt.IsInt() && rt.IsInt() && ty.IsInt() && n.IsInt() && n.Bits() <= ty.Bits()
    requires (op.PLUS? || op.MINUS? || op.TIMES?) && Cong(Modulus(n), a, x) && Cong(Modulus(n), b, y)
    ensures var r := Combine(cx, op, ty, lt, x, rt, y, t);
            && r.Value? && r.ty == ty && r.trace == t
            && Cong(Modulus(n), if op.PLUS? then a + b else if op.MINUS? then a - b else a * b, r.n)
  {
    hide Wrap, ConvertTo, Combine, Modulus;
    var fu, m := cx.env.fu, Modulus(n);
    ConvertCong(fu, lt, ty, x, t);
    ConvertCong(fu, rt, ty, y, t);
    var x', y' := ConvertTo(fu, Value(lt, x, t), ty).n, ConvertTo(fu, Value(rt, y, t), ty).n;
    CongNarrows(ty, n, x, x');
    CongNarrows(ty, n, y, y');
    CongTrans(m, a, x, x');
    CongTrans(m, b, y, y');
    CongOps(m, a, x', b, y');
    var z := if op.PLUS? then x' + y' else if op.MINUS? then x' - y' else x' * y';
    WrapCong(ty, z);
    CongNarrows(ty, n, z, Wrap(ty, z));
    CongTrans(m, if op.PLUS? then a + b else if op.MINUS? then a - b else a * b, z, Wrap(ty, z));
    CombineMeaning(cx, op, ty, lt, x, rt, y, t);
  }

  lemma CombineMeaning(cx: Ctx, op: Op, ty: Ty, lt: Ty, x: int, rt: Ty, y: int, t: seq<Event>)
    requires ty.IsInt() && (op.PLUS? || op.MINUS? || op.TIMES?)
    requires ConvertTo(cx.env.fu, Value(lt, x, t), ty).Value? && ConvertTo(cx.env.fu, Value(rt, y, t), ty).Value?
    ensures var x', y' := ConvertTo(cx.env.fu, Value(lt, x, t), ty).n, ConvertTo(cx.env.fu, Value(rt, y, t), ty).n;
            Combine(cx, op, ty, lt, x, rt, y, t)
              == Value(ty, Wrap(ty, if op.PLUS? then x' + y' else if op.MINUS? then x' - y' else x' * y'), t)
  {
    hide Wrap, ConvertTo;
  }

  lemma {:induction false} EvalCong(cx: Ctx, fr: Frame, e: Expr, n: Ty, t: seq<Event>)
    requires n.IsInt() && n.Bits() <= 32 && Polynomial(fr, e) && WideEnough(cx.sigs, fr, e, n)
    ensures var r := EvalExpr(cx, fr, e, t);
            r.Value? && r.ty.IsInt() && r.trace == t && Cong(Modulus(n), ExactValue(fr, e), r.n)
    decreases e
  {
    match e
    case IntLit(k) =>
      WrapCong(I32, k);
      CongNarrows(I32, n, k, Wrap(I32, k));
    case Identifier(x) => CongRefl(Modulus(n), ExactValue(fr, e));
    case Binary(op, l, r, _) =>
      EvalCong(cx, fr, l, n, t);
      EvalCong(cx, fr, r, n, t);
      PolynomialIsInt(cx.sigs, fr, e);
      var lv, rv := EvalExpr(cx, fr, l, t), EvalExpr(cx, fr, r, t);
      var ty := CalcType(cx.sigs, fr, e).value;
      OperationCong(cx, op, ty, n, lv.ty, lv.n, rv.ty, rv.n, ExactValue(fr, l), ExactValue(fr, r), t);
  }

  /** So is the operand the code leaves the value of any subexpression in. */
  lemma OperandCong(w: World, g: Gen, e: Expr, n: Ty, fr: Frame, m: MState) returns (k: nat, m': MState)
    requires Ready(g) && At(g, m) && GenExpr(w.cx.sigs, g, e).Ok? && Within(GenExpr(w.cx.sigs, g, e).value.0, w.code)
    requires Agree(g.scopes, fr, m.mem) && n.IsInt() && n.Bits() <= 32 && Polynomial(fr, e) && WideEnough(w.cx.sigs, fr, e, n)
    ensures var (g', v) := GenExpr(w.cx.sigs, g, e).value;
            Go(w, m, k) == Live(m') && At(g', m') && OperandValue(w.args, m', v.op).Some?
            && Cong(Modulus(n), ExactValue(fr, e), OperandValue(w.args, m', v.op).value)
  {
    hide ExecInstr, Wrap, EvalExpr, GenExpr, Polynomial, WideEnough, ExactValue, Agree, Within, Multiple;
    EvalCong(w.cx, fr, e, n, m.trace);
    k, m' := ExprComputes(w, g, e, fr, m);
  }

  /** What an n-bit variable gets is the exact integer result reduced to n bits. */
  lemma StoredExactly(cx: Ctx, fr: Frame, e: Expr, n: Ty, t: seq<Event>)
    requires n.IsInt() && n.Bits() <= 32 && Polynomial(fr, e) && WideEnough(cx.sigs, fr, e, n)
    requires forall i, x | 0 <= i < |fr| && x in fr[i] && fr[i][x].val.Def? :: InRange(fr[i][x].ty, fr[i][x].val.n)
    ensures ConvertTo(cx.env.fu, EvalExpr(cx, fr, e, t), n) == Value(n, Wrap(n, ExactValue(fr, e)), t)
  {
    EvalCong(cx, fr, e, n, t);
    var r := EvalExpr(cx, fr, e, t);
    WrapSame(n, ExactValue(fr, e), r.n);
    EvalInRange(cx, fr, e, t);
  }

  /** Every value fits its type. */
  lemma EvalInRange(cx: Ctx, fr: Frame, e: Expr, t: seq<Event>)
    requires EvalExpr(cx, fr, e, t).Value?
    requires forall i, x | 0 <= i < |fr| && x in fr[i] && fr[i][x].val.Def? :: InRange(fr[i][x].ty, fr[i][x].val.n)
    ensures InRange(EvalExpr(cx, fr, e, t).ty, EvalExpr(cx, fr, e, t).n)
  {
    hide Wrap, Combine, CalcType;
    match e
    case Binary(_, l, r, _) =>
      var lv := EvalExpr(cx, fr, l, t);
      var rv := EvalExpr(cx, fr, r, lv.trace);
      var ty := CalcType(cx.sigs, fr, e).value;
      CombineInRange(cx, e.op, ty, lv.ty, lv.n, rv.ty, rv.n, rv.trace);
    case Call(f, _) => forall n ensures InRange(cx.sigs[f].ret, Wrap(cx.sigs[f].ret, n)) { WrapTwice(cx.sigs[f].ret, n); }
    case IntLit(n) => WrapTwice(I32, n);
    case FloatLit(b) => WrapTwice(F64, b);
    case Identifier(x) =>
  }

  lemma CombineInRange(cx: Ctx, op: Op, ty: Ty, lt: Ty, x: int, rt: Ty, y: int, t: seq<Event>)
    ensures var r := Combine(cx, op, ty, lt, x, rt, y, t); r.Value? ==> InRange(r.ty, r.n)
  {
    hide Wrap, ConvertTo, FloatArith, Exact, IntCompare, FloatCompare;
    FlagInRange();
    forall z
      ensures InRange(ty, Wrap(ty, z)) && (ty.IsFloat() ==> InRange(ty, z))
    {
      WrapTwice(ty, z);
    }
  }

  lemma FlagInRange()
    ensures InRange(I1, -1) && InRange(I1, 0)
  {
  }

  lemma WrapTwice(ty: Ty, z: int)
    ensures InRange(ty, Wrap(ty, z)) && (ty.IsFloat() ==> InRange(ty, z))
  {
  }

  lemma VariablesInRange(sc: Scopes<nat>, fr: Frame, mem: map<nat, Cell>)
    requires Agree(sc, fr, mem)
    ensures forall i, x | 0 <= i < |fr| && x in fr[i] && fr[i][x].val.Def? :: InRange(fr[i][x].ty, fr[i][x].val.n)
  {
    hide Wrap;
    forall i, x | 0 <= i < |fr| && x in fr[i] && fr[i][x].val.Def?
      ensures InRange(fr[i][x].ty, fr[i][x].val.n)
    {
      assert SlotHolds(sc[i][x], fr[i][x], mem);
    }
  }

  /** In the generated code: running what is generated for such an expression, its conversion
      and the store leaves in an n-bit slot the exact result reduced to n bits, and changes
      no other slot.  Assignments, initialisers and returned values all are such code. */
  lemma SlotGetsExactly(w: World, g: Gen, e: Expr, n: Ty, fail: CgError, slot: nat, fr: Frame, m: MState)
    returns (k: nat, m': MState)
    requires Ready(g) && At(g, m) && Agree(g.scopes, fr, m.mem) && slot in m.mem && m.mem[slot].ty == n
    requires IntoSlot(w.cx.sigs, g, e, n, fail, slot).Ok? && Within(IntoSlot(w.cx.sigs, g, e, n, fail, slot).value, w.code)
    requires n.IsInt() && n.Bits() <= 32 && Polynomial(fr, e) && WideEnough(w.cx.sigs, fr, e, n)
    ensures Go(w, m, k) == Live(m') && At(IntoSlot(w.cx.sigs, g, e, n, fail, slot).value, m') && m'.trace == m.trace
    ensures m'.mem == m.mem[slot := Cell(n, Some(Wrap(n, ExactValue(fr, e))))]
  {
    hide ExecInstr, Wrap, EvalExpr, IntoSlot, ConvertTo, Within, Polynomial, WideEnough, ExactValue, Agree;
    VariablesInRange(g.scopes, fr, m.mem);
    StoredExactly(w.cx, fr, e, n, m.trace);
    IntoSlotPlace(w.cx.sigs, g, e, n, fail, slot);
    k, m' := IntoSlotRuns(w, g, e, n, fail, slot, fr, m);
  }

  /** An assignment to a variable of an integer type. */
  lemma AssignsExactly(w: World, g: Gen, g': Gen, x: string, e: Expr, fr: Frame, m: MState) returns (k: nat, m': MState)
    requires Sound(w.cx.ret, g) && Simulates(w, g, m, fr, m.trace)
    requires GenAssign(w.cx.sigs, g, x, e) == Ok(g') && Within(g', w.code)
    requires Level(fr, x).Some? && !fr[Level(fr, x).value][x].val.Missing?
    requires var n := fr[Level(fr, x).value][x].ty;
             n.IsInt() && n.Bits() <= 32 && Polynomial(fr, e) && WideEnough(w.cx.sigs, fr, e, n)
    ensures var i, n := Level(fr, x).value, fr[Level(fr, x).value][x].ty;
            Go(w, m, k) == Live(m') && Simulates(w, g', m', SetVar(fr, i, x, Def(Wrap(n, ExactValue(fr, e)))), m.trace)
  {
    hide ExecInstr, Wrap, EvalExpr, ConvertTo, GenAssign, ExecAssign, Within, Polynomial, WideEnough, ExactValue, Distinct, Below,
         Simulates;
    var n := fr[Level(fr, x).value][x].ty;
    Visible(w, g, m, fr);
    StoredExactly(w.cx, fr, e, n, m.trace);
    AssignMeaning(w.cx, fr, x, e, m.trace);
    k := AssignSim(w, g, g', x, e, fr, m, 0);
    m' := Go(w, m, k).m;
  }

  lemma Visible(w: World, g: Gen, m: MState, fr: Frame)
    requires Simulates(w, g, m, fr, m.trace)
    ensures forall i, x | 0 <= i < |fr| && x in fr[i] && fr[i][x].val.Def? :: InRange(fr[i][x].ty, fr[i][x].val.n)
  {
    hide Wrap, Agree;
    VariablesInRange(g.scopes, fr, m.mem);
  }

  /** In a narrower type bits are lost: 100 + 100 in two 8-bit variables is -56. */
  lemma NarrowLosesBits(cx: Ctx, t: seq<Event>)
    ensures var fr := [map["x" := Binding(I8, Def(100))]];
            var e := Binary(PLUS, Identifier("x"), Identifier("x"), false);
            && Polynomial(fr, e) && !WideEnough(cx.sigs, fr, e, I32)
            && ExactValue(fr, e) == 200 && ConvertTo(cx.env.fu, EvalExpr(cx, fr, e, t), I32) == Value(I32, -56, t)
  {
    var fr: Frame := [map["x" := Binding(I8, Def(100))]];
    assert Level(fr, "x") == Some(0);
    assert EvalExpr(cx, fr, Identifier("x"), t) == Value(I8, 100, t);
    assert CalcType(cx.sigs, fr, Binary(PLUS, Identifier("x"), Identifier("x"), false)) == Ok(I8);
  }

  /** And so they are in the code: a 32-bit slot is given -56. */
  lemma NarrowCodeLosesBits(w: World, g: Gen, fail: CgError, slot: nat, m: MState) returns (k: nat, m': MState)
    requires Ready(g) && At(g, m) && Agree(g.scopes, [map["x" := Binding(I8, Def(100))]], m.mem)
    requires slot in m.mem && m.mem[slot].ty == I32
    requires var e := Binary(PLUS, Identifier("x"), Identifier("x"), false);
             && IntoSlot(w.cx.sigs, g, e, I32, fail, slot).Ok?
             && Within(IntoSlot(w.cx.sigs, g, e, I32, fail, slot).value, w.code)
    ensures Go(w, m, k) == Live(m') && m'.mem == m.mem[slot := Cell(I32, Some(-56))]
  {
    hide ExecInstr, Wrap, EvalExpr, IntoSlot, ConvertTo, Within;
    var e := Binary(PLUS, Identifier("x"), Identifier("x"), false);
    NarrowLosesBits(w.cx, m.trace);
    k, m' := IntoSlotRuns(w, g, e, I32, fail, slot, [map["x" := Binding(I8, Def(100))]], m);
  }
}
