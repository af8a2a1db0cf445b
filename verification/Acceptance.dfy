/** What the generator accepts: exactly the programs without a fault by the static rules,
    and any other program is refused with its first fault. */
module Acceptance {
  import opened Ast
  import opened IR
  import opened Typing
  import opened Codegen
  import opened Modules
  import opened StaticRules
  import Preservation
  import Types

  function TyKind(t: Ty): Kind {
    if t.IsInt() then Whole else if t.IsFloat() then Fractional else if t.Ptr? then Pointer else Nothing
  }

  function TyKinds(ts: seq<Ty>): seq<Kind> { seq(|ts|, i requires 0 <= i < |ts| => TyKind(ts[i])) }

  function Kinds(scope: map<string, Binding<nat>>): map<string, Kind> { map x | x in scope :: TyKind(scope[x].ty) }

  function ScopeKinds(sc: Scopes<nat>): Names { seq(|sc|, i requires 0 <= i < |sc| => Kinds(sc[i])) }

  function SigKind(s: Sig): Signature { Signature(TyKind(s.ret), TyKinds(s.params)) }

  function SigKinds(sigs: Sigs): Signatures { map f | f in sigs :: SigKind(sigs[f]) }

  function ResultKind(result: Option<Binding<nat>>): Option<Kind> {
    match result case None => None case Some(b) => Some(TyKind(b.ty))
  }

  function Error<T>(r: Result<T>): Fault { match r case Ok(_) => None case Err(e) => Some(e) }

  /** The generator names types as the rules name kinds. */
  lemma DeclaredKindIs(t: VarType)
    ensures TyKind(IRType(t)) == DeclaredKind(t)
  {
  }

  // ----- expressions -----

  lemma LevelKnown(sc: Scopes<nat>, x: string)
    ensures Known(ScopeKinds(sc), x) <==> Level(sc, x).Some?
    ensures Level(sc, x).Some? ==> KindOf(ScopeKinds(sc), x) == TyKind(sc[Level(sc, x).value][x].ty)
  {
    var names := ScopeKinds(sc);
    assert forall i | 0 <= i < |sc| :: x in names[i] <==> x in sc[i];
    if Level(sc, x).Some? {
      var i := Level(sc, x).value;
      assert x in names[i];
      var j := Innermost(names, x);
      assert x in sc[j];
    }
  }

  /** The generated value may be a boolean where a wider type was calculated; to a rule
      they are the same. */
  predicate SameUse(ty: Ty, k: Kind) { (ty.Ptr? <==> k.Pointer?) && (ty.Void? <==> k.Nothing?) }

  lemma {:induction false} CalcKind(sigs: Sigs, sc: Scopes<nat>, e: Expr)
    requires CalcType(sigs, sc, e).Ok? && (e.Binary? ==> !CalcType(sigs, sc, e).value.Ptr?)
    ensures ExprKind(SigKinds(sigs), ScopeKinds(sc), e) == TyKind(CalcType(sigs, sc, e).value)
    decreases e
  {
    hide ScopeKinds, KindOf, Known;
    match e
    case Identifier(x) => LevelKnown(sc, x);
    case Binary(_, l, r, _) =>
      CalcKind(sigs, sc, l);
      CalcKind(sigs, sc, r);
    case _ =>
  }

  lemma OpFault(g: Gen, op: Op, ty: Ty, a: Operand, b: Operand)
    requires Ready(g) && Types.Scalar(ty)
    ensures Error(GenOp(g, op, ty, a, b)) == Unless(op !in {SHL, SHR} || ty.IsInt(), NotForFloats)
  {
  }

  lemma OperationFault(g: Gen, op: Op, ty: Ty, l: Operand, r: Operand)
    requires Ready(g) && Types.Scalar(ty) && Types.Scalar(l.ty) && Types.Scalar(r.ty)
    ensures Error(GenOperation(g, op, ty, l, r)) == Unless(op !in {SHL, SHR} || ty.IsInt(), NotForFloats)
  {
    hide GenOp, EnsureType;
    ConvertFault(g, l, ty, InternalError);
    var (g1, a) := EnsureType(g, l, ty, InternalError).value;
    ConvertFault(g1, r, ty, InternalError);
    var (g2, b) := EnsureType(g1, r, ty, InternalError).value;
    OpFault(g2, op, ty, a, b);
  }

  lemma ConvertFault(g: Gen, v: Operand, ty: Ty, fail: CgError)
    requires Ready(g)
    ensures Error(EnsureType(g, v, ty, fail)) == ConversionFault(TyKind(v.ty), TyKind(ty), fail)
  {
  }

  /** What is left of an operation whose operands are generated. */
  function Operated(sigs: Sigs, g: Gen, e: Expr, l: Operand, r: Operand): Result<(Gen, Val)>
    requires Ready(g) && e.Binary?
  {
    if l.ty.Ptr? || r.ty.Ptr? then Err(PointerArithmetic)
    else
      var ty :- CalcType(sigs, g.scopes, e);
      GenOperation(g, e.op, ty, l, r)
  }

  lemma CalcFault(sigs: Sigs, sc: Scopes<nat>, e: Expr)
    requires e.Binary? && CalcType(sigs, sc, e.left).Ok? && CalcType(sigs, sc, e.right).Ok?
    ensures var lt, rt, t := CalcType(sigs, sc, e.left).value, CalcType(sigs, sc, e.right).value, CalcType(sigs, sc, e);
            && (lt.Void? || rt.Void? ==> t == Err(OperateOnVoid))
            && (Types.Scalar(lt) && Types.Scalar(rt) ==>
                  t.Ok? && Types.Scalar(t.value) && (t.value.IsInt() <==> lt.IsInt() && rt.IsInt()))
  {
  }

  lemma OperatedFault(sigs: Sigs, g: Gen, e: Expr, l: Operand, r: Operand, lk: Kind, rk: Kind)
    requires Ready(g) && e.Binary? && CalcType(sigs, g.scopes, e.left).Ok? && CalcType(sigs, g.scopes, e.right).Ok?
    requires TyKind(CalcType(sigs, g.scopes, e.left).value) == lk && TyKind(CalcType(sigs, g.scopes, e.right).value) == rk
    requires SameUse(l.ty, lk) && SameUse(r.ty, rk)
    ensures Error(Operated(sigs, g, e, l, r)) == OperandsFault(e.op, lk, rk)
    ensures Operated(sigs, g, e, l, r).Ok? ==> Types.Scalar(Operated(sigs, g, e, l, r).value.1.op.ty)
    ensures Operated(sigs, g, e, l, r).Ok? ==> CalcType(sigs, g.scopes, e).Ok? && !CalcType(sigs, g.scopes, e).value.Ptr?
  {
    hide GenOperation, CalcType;
    CalcFault(sigs, g.scopes, e);
    var c := CalcType(sigs, g.scopes, e);
    if lk.IsNumber() && rk.IsNumber() {
      OperationFault(g, e.op, c.value, l, r);
      ScalarOperation(g, e.op, c.value, l, r);
    }
  }

  /** An expression is accepted exactly when it has no fault; its type is then one of the
      kind that the rules give it. */
  lemma {:induction false} ExprAccepted(sigs: Sigs, g: Gen, e: Expr)
    requires Ready(g)
    ensures Error(GenExpr(sigs, g, e)) == ExprFault(SigKinds(sigs), ScopeKinds(g.scopes), e)
    ensures GenExpr(sigs, g, e).Ok? ==> SameUse(GenExpr(sigs, g, e).value.1.op.ty, ExprKind(SigKinds(sigs), ScopeKinds(g.scopes), e))
    ensures GenExpr(sigs, g, e).Ok? ==> CalcType(sigs, g.scopes, e).Ok? && (e.Binary? ==> !CalcType(sigs, g.scopes, e).value.Ptr?)
    decreases e, 1
  {
    hide ScopeKinds, KindOf, Known, GenBinary, GenCall, CalcType, OperandsFault;
    match e
    case Identifier(x) =>
      LevelKnown(g.scopes, x);
      LeafTyped(sigs, g.scopes, e);
    case Binary(op, l, r, _) => BinaryAccepted(sigs, g, e);
    case Call(f, args) =>
      LeafTyped(sigs, g.scopes, e);
      CallAccepted(sigs, g, e);
    case _ => LeafTyped(sigs, g.scopes, e);
  }

  lemma LeafTyped(sigs: Sigs, sc: Scopes<nat>, e: Expr)
    requires !e.Binary?
    ensures CalcType(sigs, sc, e).Ok? <==> (e.Identifier? ==> Level(sc, e.name).Some?) && (e.Call? ==> e.fn in sigs)
  {
  }

  lemma {:induction false} BinaryAccepted(sigs: Sigs, g: Gen, e: Expr)
    requires Ready(g) && e.Binary?
    ensures Error(GenExpr(sigs, g, e)) == ExprFault(SigKinds(sigs), ScopeKinds(g.scopes), e)
    ensures GenExpr(sigs, g, e).Ok? ==> SameUse(GenExpr(sigs, g, e).value.1.op.ty, ExprKind(SigKinds(sigs), ScopeKinds(g.scopes), e))
    ensures GenExpr(sigs, g, e).Ok? ==> CalcType(sigs, g.scopes, e).Ok? && !CalcType(sigs, g.scopes, e).value.Ptr?
    decreases e, 0
  {
    hide ScopeKinds, CalcType, Operated, OperandsFault, SigKinds, GenExpr, SameUse, ExprKind, ExprFault, Types.Scalar, TyKind, Appends;
    var sk, names := SigKinds(sigs), ScopeKinds(g.scopes);
    ExprAccepted(sigs, g, e.left);
    FaultParts(sk, names, e);
    BinaryUnfolds(sigs, g, e);
    if GenExpr(sigs, g, e.left).Ok? {
      var (g1, lv) := GenExpr(sigs, g, e.left).value;
      StillReady(g, g1);
      ExprAccepted(sigs, g1, e.right);
      if GenExpr(sigs, g1, e.right).Ok? {
        var (g2, rv) := GenExpr(sigs, g1, e.right).value;
        StillReady(g1, g2);
        CalcKind(sigs, g.scopes, e.left);
        CalcKind(sigs, g.scopes, e.right);
        var lk, rk := ExprKind(sk, names, e.left), ExprKind(sk, names, e.right);
        OperatedFault(sigs, g2, e, lv.op, rv.op, lk, rk);
        NumberKind(sk, names, e, GenExpr(sigs, g, e));
      }
    }
  }

  lemma StillReady(g: Gen, g': Gen)
    requires Ready(g) && Appends(g, g')
    ensures Ready(g') && g'.scopes == g.scopes && g'.result == g.result
  {
  }

  lemma FaultParts(sigs: Signatures, names: Names, e: Expr)
    requires e.Binary?
    ensures ExprFault(sigs, names, e)
         == First(ExprFault(sigs, names, e.left),
                  First(ExprFault(sigs, names, e.right),
                        OperandsFault(e.op, ExprKind(sigs, names, e.left), ExprKind(sigs, names, e.right))))
  {
  }

  lemma BinaryUnfolds(sigs: Sigs, g: Gen, e: Expr)
    requires Ready(g) && e.Binary?
    ensures GenExpr(sigs, g, e.left).Err? ==> Error(GenExpr(sigs, g, e)) == Error(GenExpr(sigs, g, e.left))
    ensures GenExpr(sigs, g, e.left).Ok? ==>
            var (g1, lv) := GenExpr(sigs, g, e.left).value;
            && (GenExpr(sigs, g1, e.right).Err? ==> Error(GenExpr(sigs, g, e)) == Error(GenExpr(sigs, g1, e.right)))
            && (GenExpr(sigs, g1, e.right).Ok? ==>
                  var (g2, rv) := GenExpr(sigs, g1, e.right).value;
                  GenExpr(sigs, g, e) == Operated(sigs, g2, e, lv.op, rv.op))
  {
    hide CalcType, GenOperation;
  }

  /** The value of an operation is a number. */
  lemma NumberKind(sigs: Signatures, names: Names, e: Expr, r: Result<(Gen, Val)>)
    requires e.Binary? && (r.Ok? ==> Types.Scalar(r.value.1.op.ty))
    ensures r.Ok? ==> SameUse(r.value.1.op.ty, ExprKind(sigs, names, e))
  {
  }

  lemma ScalarOperation(g: Gen, op: Op, ty: Ty, l: Operand, r: Operand)
    requires Ready(g)
    ensures GenOperation(g, op, ty, l, r).Ok? ==> Types.Scalar(GenOperation(g, op, ty, l, r).value.1.op.ty)
  {
    hide EnsureType;
  }

  lemma {:induction false} CallAccepted(sigs: Sigs, g: Gen, e: Expr)
    requires Ready(g) && e.Call?
    ensures Error(GenExpr(sigs, g, e)) == ExprFault(SigKinds(sigs), ScopeKinds(g.scopes), e)
    ensures GenExpr(sigs, g, e).Ok? ==> SameUse(GenExpr(sigs, g, e).value.1.op.ty, ExprKind(SigKinds(sigs), ScopeKinds(g.scopes), e))
    decreases e, 0
  {
    hide ScopeKinds, GenArgs;
    if e.fn in sigs {
      ArgsAccepted(sigs, g, e.args, sigs[e.fn].params);
    }
  }

  lemma {:induction false} ArgsAccepted(sigs: Sigs, g: Gen, args: seq<Expr>, params: seq<Ty>)
    requires Ready(g)
    ensures Error(GenArgs(sigs, g, args, params)) == ArgsFault(SigKinds(sigs), ScopeKinds(g.scopes), args, TyKinds(params))
    decreases args
  {
    hide ScopeKinds, SigKinds, GenExpr, EnsureType, ExprFault, ExprKind;
    if args != [] {
      ExprAccepted(sigs, g, args[0]);
      if GenExpr(sigs, g, args[0]).Ok? && params != [] {
        var (g1, v) := GenExpr(sigs, g, args[0]).value;
        ConvertFault(g1, v.op, params[0], CannotPass);
        assert TyKinds(params)[1..] == TyKinds(params[1..]);
        if EnsureType(g1, v.op, params[0], CannotPass).Ok? {
          ArgsAccepted(sigs, EnsureType(g1, v.op, params[0], CannotPass).value.0, args[1..], params[1..]);
        }
      }
    }
  }

  /** To a rule it makes no difference which of the two types an expression has. */
  lemma SameConversion(ty: Ty, k: Kind, to: Kind, mismatch: CgError)
    requires SameUse(ty, k)
    ensures ConversionFault(TyKind(ty), to, mismatch) == ConversionFault(k, to, mismatch)
    ensures TyKind(ty).IsNumber() <==> k.IsNumber()
  {
  }

  /** A value generated and converted. */
  function Valued(sigs: Sigs, g: Gen, e: Expr, ty: Ty, fail: CgError): (r: Result<(Gen, Operand)>)
    requires Ready(g)
    ensures r.Ok? ==> Appends(g, r.value.0)
  {
    var (g1, v) :- GenExpr(sigs, g, e);
    EnsureType(g1, v.op, ty, fail)
  }

  lemma ValueUnfolds(sigs: Sigs, g: Gen, e: Expr, ty: Ty, fail: CgError)
    requires Ready(g)
    ensures GenExpr(sigs, g, e).Err? ==> Error(Valued(sigs, g, e, ty, fail)) == Error(GenExpr(sigs, g, e))
    ensures GenExpr(sigs, g, e).Ok? ==>
            Error(Valued(sigs, g, e, ty, fail)) == ConversionFault(TyKind(GenExpr(sigs, g, e).value.1.op.ty), TyKind(ty), fail)
  {
    hide GenExpr, EnsureType, Appends, ConversionFault, TyKind, ValDefined;
    if GenExpr(sigs, g, e).Ok? {
      var r: (Gen, Val) := GenExpr(sigs, g, e).value;
      StillReady(g, r.0);
      ConvertFault(r.0, r.1.op, ty, fail);
    }
  }

  lemma ValueAccepted(sigs: Sigs, g: Gen, e: Expr, ty: Ty, fail: CgError)
    requires Ready(g)
    ensures Error(Valued(sigs, g, e, ty, fail)) == ValueFault(SigKinds(sigs), ScopeKinds(g.scopes), e, TyKind(ty), fail)
  {
    hide ScopeKinds, SigKinds, Valued, GenExpr, ExprFault, ExprKind, ConversionFault, SameUse, Appends, TyKind, ValDefined, CalcType;
    ExprAccepted(sigs, g, e);
    ValueUnfolds(sigs, g, e, ty, fail);
    if GenExpr(sigs, g, e).Ok? {
      SameConversion(GenExpr(sigs, g, e).value.1.op.ty, ExprKind(SigKinds(sigs), ScopeKinds(g.scopes), e), TyKind(ty), fail);
    }
  }

  lemma ConditionAccepted(sigs: Sigs, g: Gen, e: Expr)
    requires Ready(g)
    ensures Error(GenCondition(sigs, g, e)) == ConditionFault(SigKinds(sigs), ScopeKinds(g.scopes), e)
  {
    hide ScopeKinds, SigKinds, GenExpr, Truthiness, ExprFault, ExprKind, ConversionFault, SameUse;
    ExprAccepted(sigs, g, e);
    if GenExpr(sigs, g, e).Ok? {
      var (g1, v) := GenExpr(sigs, g, e).value;
      TruthFault(g1, v);
      SameConversion(v.op.ty, ExprKind(SigKinds(sigs), ScopeKinds(g.scopes), e), Whole, NotBoolean);
    }
  }

  lemma TruthFault(g: Gen, v: Val)
    requires Ready(g) && ValDefined(v, g.nextReg)
    ensures Error(Truthiness(g, v)) == Unless(TyKind(v.op.ty).IsNumber(), NotBoolean)
  {
    if TyKind(v.op.ty).IsNumber() {
      ConvertFault(g, Const(I64, 0), v.op.ty, InternalError);
    }
  }

  // ----- statements -----

  /** The outcome is the fault, if there is one; otherwise the names are as they should be. */
  predicate Agrees(g: Gen, r: Result<Gen>, fault: Fault, names: Names) {
    && Error(r) == fault
    && (r.Ok? ==> ScopeKinds(r.value.scopes) == names && r.value.result == g.result)
  }

  lemma VardeclAccepted(sigs: Sigs, g: Gen, x: string, t: VarType, init: Option<Expr>)
    requires Ready(g)
    ensures Agrees(g, GenVardecl(sigs, g, x, IRType(t), init),
                   StmtFault(SigKinds(sigs), ScopeKinds(g.scopes), ResultKind(g.result), Vardecl(x, t, init)),
                   After(ScopeKinds(g.scopes), Vardecl(x, t, init)))
  {
    hide ScopeKinds, SigKinds, GenExpr, EnsureType, ValueFault, IRType, DeclaredKind;
    var ty := IRType(t);
    DeclaredKindIs(t);
    NothingIsVoid(ty);
    TopKinds(g.scopes, x);
    if !ty.Void? && g.scopes != [] && x !in g.scopes[|g.scopes| - 1] {
      var g2 := NewSlot(g, ty).(scopes := Bind(g.scopes, x, Binding(ty, g.nextSlot)));
      BindKinds(g.scopes, x, Binding(ty, g.nextSlot));
      if init.Some? {
        ValueAccepted(sigs, g2, init.value, ty, CannotInitialize);
        assert Error(GenVardecl(sigs, g, x, ty, init)) == Error(Valued(sigs, g2, init.value, ty, CannotInitialize));
      }
    }
  }

  lemma NothingIsVoid(ty: Ty)
    ensures TyKind(ty).Nothing? <==> ty.Void?
  {
  }

  lemma TopKinds(sc: Scopes<nat>, x: string)
    ensures |ScopeKinds(sc)| == |sc|
    ensures sc != [] ==> (x in ScopeKinds(sc)[|sc| - 1] <==> x in sc[|sc| - 1])
  {
  }

  lemma BindKinds(sc: Scopes<nat>, x: string, b: Binding<nat>)
    requires sc != []
    ensures ScopeKinds(Bind(sc, x, b)) == AddName(ScopeKinds(sc), x, TyKind(b.ty))
  {
    var last := |sc| - 1;
    assert Kinds(sc[last][x := b]) == Kinds(sc[last])[x := TyKind(b.ty)];
  }

  lemma ReturnAccepted(sigs: Sigs, g: Gen, value: Option<Expr>)
    requires Ready(g)
    ensures Agrees(g, GenReturn(sigs, g, value), StmtFault(SigKinds(sigs), ScopeKinds(g.scopes), ResultKind(g.result), Return(value)),
                   ScopeKinds(g.scopes))
  {
    hide ScopeKinds, SigKinds, GenExpr, EnsureType, ExprFault, ConversionFault, ExprKind, TyKind;
    if value.Some? {
      ExprAccepted(sigs, g, value.value);
      if g.result.Some? {
        ValueAccepted(sigs, g, value.value, g.result.value.ty, CannotReturn);
      }
    }
  }

  lemma AssignAccepted(sigs: Sigs, g: Gen, x: string, e: Expr)
    requires Ready(g)
    ensures Agrees(g, GenAssign(sigs, g, x, e), StmtFault(SigKinds(sigs), ScopeKinds(g.scopes), ResultKind(g.result), Assign(x, e)),
                   ScopeKinds(g.scopes))
  {
    hide ScopeKinds, SigKinds, GenExpr, EnsureType, ExprFault, ConversionFault, ExprKind, TyKind, Known, KindOf, Level;
    ExprAccepted(sigs, g, e);
    LevelKnown(g.scopes, x);
    if Level(g.scopes, x).Some? {
      ValueAccepted(sigs, g, e, g.scopes[Level(g.scopes, x).value][x].ty, CannotAssign);
    }
  }

  lemma InputAccepted(sigs: Sigs, g: Gen, x: string)
    requires Ready(g)
    ensures Agrees(g, GenInput(g, x), StmtFault(SigKinds(sigs), ScopeKinds(g.scopes), ResultKind(g.result), Input(x)),
                   ScopeKinds(g.scopes))
  {
    hide ScopeKinds, SigKinds, Truthiness, Known, KindOf, Level;
    LevelKnown(g.scopes, x);
    if Level(g.scopes, x).Some? && g.scopes[Level(g.scopes, x).value][x].ty == I1 {
      var g1 := Emit(NewSlot(g, I32), CallScan(I1, g.nextSlot));
      var g2 := Define(g1, Load(g1.nextReg, I1, g.nextSlot));
      TruthFault(g2, Val(Reg(I1, g1.nextReg), false));
    }
  }

  lemma PrintAccepted(sigs: Sigs, g: Gen, e: Expr)
    requires Ready(g)
    ensures Agrees(g, GenPrint(sigs, g, e), StmtFault(SigKinds(sigs), ScopeKinds(g.scopes), ResultKind(g.result), Print(e)),
                   ScopeKinds(g.scopes))
  {
    hide ScopeKinds, SigKinds, GenExpr, ExprFault, ExprKind, SameUse;
    ExprAccepted(sigs, g, e);
    if GenExpr(sigs, g, e).Ok? {
      var (g1, v) := GenExpr(sigs, g, e).value;
      SameConversion(v.op.ty, ExprKind(SigKinds(sigs), ScopeKinds(g.scopes), e), Whole, CannotPrint);
    }
  }

  lemma AssertAccepted(sigs: Sigs, g: Gen, e: Expr)
    requires Ready(g)
    ensures Agrees(g, GenAssert(sigs, g, e), StmtFault(SigKinds(sigs), ScopeKinds(g.scopes), ResultKind(g.result), Assert(e)),
                   ScopeKinds(g.scopes))
  {
    hide ScopeKinds, SigKinds, GenCondition, ConditionFault;
    ConditionAccepted(sigs, BranchTo(NewBlock(NewBlock(NewBlock(g))), |g.blocks|), e);
  }

  lemma ExprStmtAccepted(sigs: Sigs, g: Gen, e: Expr)
    requires Ready(g)
    ensures Agrees(g, GenStmt(sigs, g, ExprStmt(e)), ExprFault(SigKinds(sigs), ScopeKinds(g.scopes), e), ScopeKinds(g.scopes))
  {
    hide ScopeKinds, SigKinds, GenExpr, ExprFault;
    ExprAccepted(sigs, g, e);
  }

  lemma EnterKinds(sc: Scopes<nat>)
    ensures ScopeKinds(sc + [map[]]) == Enter(ScopeKinds(sc))
  {
    var empty: map<string, Binding<nat>> := map[];
    assert Kinds(empty) == map[];
  }

  /** Closing a scope gives back the names before it was opened. */
  lemma LeaveKinds(sc: Scopes<nat>, names: Names, body: seq<Stmt>)
    requires ScopeKinds(sc) == AfterBody(Enter(names), body)
    ensures sc != [] && ScopeKinds(sc[..|sc| - 1]) == names
  {
    var all := AfterBody(Enter(names), body);
    assert all[..|all| - 1] == Enter(names)[..|names|] == names;
  }

  /** A statement is accepted exactly when it has no fault; otherwise the fault is the error
      reported.  Afterwards the names are those the rules say. */
  lemma {:induction false} StmtAccepted(sigs: Sigs, g: Gen, s: Stmt)
    requires Ready(g)
    ensures Agrees(g, GenStmt(sigs, g, s), StmtFault(SigKinds(sigs), ScopeKinds(g.scopes), ResultKind(g.result), s),
                   After(ScopeKinds(g.scopes), s))
    decreases s, 1
  {
    hide ScopeKinds, SigKinds, Agrees, GenLoop, GenBranch, GenVardecl, GenReturn, GenAssign, GenInput, GenPrint, GenAssert, GenExpr;
    hide ConditionFault, ExprFault, BodyFault, CasesFault, ElseFault;
    match s
    case Assert(e) => AssertAccepted(sigs, g, e);
    case Input(x) => InputAccepted(sigs, g, x);
    case Abort => AbortAccepted(g);
    case Vardecl(x, t, init) => VardeclAccepted(sigs, g, x, t, init);
    case Return(v) => ReturnAccepted(sigs, g, v);
    case Print(e) => PrintAccepted(sigs, g, e);
    case Assign(x, e) => AssignAccepted(sigs, g, x, e);
    case ExprStmt(e) => ExprStmtAccepted(sigs, g, e);
    case Loop(_, _) => LoopAccepted(sigs, g, s);
    case Branch(_, _, _) => BranchAccepted(sigs, g, s);
  }

  lemma AbortAccepted(g: Gen)
    requires Ready(g)
    ensures Agrees(g, Ok(Emit(g, CallAbort)), None, ScopeKinds(g.scopes))
  {
  }

  lemma {:induction false} LoopAccepted(sigs: Sigs, g: Gen, s: Stmt)
    requires Ready(g) && s.Loop?
    ensures Agrees(g, GenLoop(sigs, g, s), StmtFault(SigKinds(sigs), ScopeKinds(g.scopes), ResultKind(g.result), s),
                   ScopeKinds(g.scopes))
    decreases s, 0
  {
    hide ScopeKinds, SigKinds, GenStmts, GenCondition, ConditionFault, BodyFault, AfterBody, Enter, ResultKind;
    var g1 := EnterScope(BranchTo(NewBlock(g), |g.blocks|));
    EnterKinds(g.scopes);
    BodyAccepted(sigs, g1, s.body);
    if GenStmts(sigs, g1, s.body).Ok? {
      var g2 := GenStmts(sigs, g1, s.body).value;
      LeaveKinds(g2.scopes, ScopeKinds(g.scopes), s.body);
      var g3 := BranchTo(CreateBlock(NewBlock(LeaveScope(g2))), |g2.blocks|);
      ConditionAccepted(sigs, g3, s.cond);
    }
  }

  lemma {:induction false} BodyAccepted(sigs: Sigs, g: Gen, body: seq<Stmt>)
    requires Ready(g)
    ensures Agrees(g, GenStmts(sigs, g, body), BodyFault(SigKinds(sigs), ScopeKinds(g.scopes), ResultKind(g.result), body),
                   AfterBody(ScopeKinds(g.scopes), body))
    decreases body
  {
    hide ScopeKinds, SigKinds, GenStmt, StmtFault, After;
    if body != [] {
      StmtAccepted(sigs, g, body[0]);
      if GenStmt(sigs, g, body[0]).Ok? {
        BodyAccepted(sigs, GenStmt(sigs, g, body[0]).value, body[1..]);
      }
    }
  }

  lemma {:induction false} CaseAccepted(sigs: Sigs, g: Gen, c: Case, exit: nat)
    requires Ready(g)
    ensures Agrees(g, GenCase(sigs, g, c, exit), CaseFault(SigKinds(sigs), ScopeKinds(g.scopes), ResultKind(g.result), c),
                   AfterBody(ScopeKinds(g.scopes), c.body))
    decreases c
  {
    hide ScopeKinds, SigKinds, GenStmts, GenCondition, ConditionFault, BodyFault, AfterBody, ResultKind;
    ConditionAccepted(sigs, g, c.cond);
    if GenCondition(sigs, g, c.cond).Ok? {
      var (g1, v) := GenCondition(sigs, g, c.cond).value;
      var next, body := |g1.blocks|, |g1.blocks| + 1;
      BodyAccepted(sigs, Emit(NewBlock(CreateBlock(g1)), CondBr(v, body, next)).(cur := body), c.body);
    }
  }

  lemma {:induction false} CasesAccepted(sigs: Sigs, g: Gen, cases: seq<Case>, exit: nat)
    requires Ready(g)
    ensures Agrees(g, GenCases(sigs, g, cases, exit), CasesFault(SigKinds(sigs), ScopeKinds(g.scopes), ResultKind(g.result), cases),
                   AfterCases(ScopeKinds(g.scopes), cases))
    decreases cases
  {
    hide ScopeKinds, SigKinds, GenCase, CaseFault, AfterBody;
    if cases != [] {
      CaseAccepted(sigs, g, cases[0], exit);
      if GenCase(sigs, g, cases[0], exit).Ok? {
        CasesAccepted(sigs, GenCase(sigs, g, cases[0], exit).value, cases[1..], exit);
      }
    }
  }

  lemma {:induction false} ElseAccepted(sigs: Sigs, g: Gen, els: Else)
    requires Ready(g)
    ensures Agrees(g, GenElse(sigs, g, els), ElseFault(SigKinds(sigs), ScopeKinds(g.scopes), ResultKind(g.result), els),
                   ScopeKinds(g.scopes))
    decreases els
  {
    hide ScopeKinds, SigKinds, GenStmts, BodyFault, AfterBody, Enter, ResultKind;
    if els.Else? {
      var g1 := BranchTo(NewBlock(EnterScope(g)), |g.blocks|);
      EnterKinds(g.scopes);
      BodyAccepted(sigs, g1, els.body);
      if GenStmts(sigs, g1, els.body).Ok? {
        LeaveKinds(GenStmts(sigs, g1, els.body).value.scopes, ScopeKinds(g.scopes), els.body);
      }
    }
  }

  lemma {:induction false} BranchAccepted(sigs: Sigs, g: Gen, s: Stmt)
    requires Ready(g) && s.Branch?
    ensures Agrees(g, GenBranch(sigs, g, s), StmtFault(SigKinds(sigs), ScopeKinds(g.scopes), ResultKind(g.result), s),
                   After(ScopeKinds(g.scopes), s))
    decreases s, 0
  {
    hide ScopeKinds, SigKinds, GenCases, GenElse, CasesFault, ElseFault, AfterCases, ResultKind;
    var g1 := BranchTo(NewBlock(BranchTo(CreateBlock(NewBlock(g)), |g.blocks|)), |g.blocks| + 2);
    CasesAccepted(sigs, g1, s.cases, |g.blocks| + 1);
    if GenCases(sigs, g1, s.cases, |g.blocks| + 1).Ok? {
      ElseAccepted(sigs, GenCases(sigs, g1, s.cases, |g.blocks| + 1).value, s.els);
    }
  }

  // ----- functions and modules -----

  /** Parameters have types and names that are new. */
  predicate ProperParams(names: Names, params: seq<Param>) {
    && (forall p | p in params :: !DeclaredKind(p.ty).Nothing?)
    && (forall i, j | 0 <= i < j < |params| :: params[i].name != params[j].name)
    && (names != [] ==> forall p | p in params :: p.name !in names[|names| - 1])
  }

  lemma ProperStep(names: Names, params: seq<Param>)
    requires params != [] && names != []
    ensures ProperParams(names, params)
       <==> !DeclaredKind(params[0].ty).Nothing? && params[0].name !in names[|names| - 1]
            && ProperParams(AddName(names, params[0].name, DeclaredKind(params[0].ty)), params[1..])
  {
    hide DeclaredKind;
    var rest := params[1..];
    assert forall i | 0 <= i < |rest| :: rest[i] == params[i + 1];
    assert forall i | 0 < i < |params| :: params[i] == rest[i - 1];
    assert forall p | p in params :: p == params[0] || p in rest;
    assert params[0] in params && forall p | p in rest :: p in params;
  }

  lemma {:induction false} ParamsAccepted(g: Gen, params: seq<Param>, index: nat)
    requires Ready(g) && g.scopes != []
    ensures Agrees(g, GenParams(g, params, index), Unless(ProperParams(ScopeKinds(g.scopes), params), InternalError),
                   AfterParams(ScopeKinds(g.scopes), params))
    decreases params
  {
    hide ScopeKinds, ProperParams, IRType, DeclaredKind, TyKind;
    if params == [] {
      NoParams(ScopeKinds(g.scopes));
    } else {
      var x, ty := params[0].name, IRType(params[0].ty);
      DeclaredKindIs(params[0].ty);
      NothingIsVoid(ty);
      TopKinds(g.scopes, x);
      ProperStep(ScopeKinds(g.scopes), params);
      if !ty.Void? && x !in g.scopes[|g.scopes| - 1] {
        BindKinds(g.scopes, x, Binding(ty, g.nextSlot));
        var g1 := Emit(NewSlot(g, ty), Store(Arg(ty, index), g.nextSlot));
        ParamsAccepted(g1.(scopes := Bind(g.scopes, x, Binding(ty, g.nextSlot))), params[1..], index + 1);
      }
    }
  }

  lemma NoParams(names: Names)
    ensures ProperParams(names, [])
  {
  }

  lemma ProperAtFirst(params: seq<Param>)
    ensures ProperParams([map[]], params)
       <==> (forall p | p in params :: !DeclaredKind(p.ty).Nothing?)
            && (forall i, j | 0 <= i < j < |params| :: params[i].name != params[j].name)
  {
  }

  lemma ResultAccepted(g: Gen, ret: Ty, entryPoint: bool)
    requires Ready(g)
    ensures Error(GenResult(g, ret, entryPoint)) == Unless(entryPoint ==> TyKind(ret).Whole? || TyKind(ret).Nothing?, InternalError)
    ensures GenResult(g, ret, entryPoint).Ok? ==>
            var g' := GenResult(g, ret, entryPoint).value;
            g'.scopes == g.scopes && ResultKind(g'.result) == if TyKind(ret).Nothing? then None else Some(TyKind(ret))
  {
    hide EnsureType;
    if ret.IsInt() {
      ConvertFault(NewSlot(g, ret).(result := Some(Binding(ret, g.nextSlot))), Const(I64, 0), ret, InternalError);
    }
  }

  lemma PrologueAccepted(f: Function)
    ensures Error(GenPrologue(f)) == Unless(ProperHeader(f), InternalError)
    ensures GenPrologue(f).Ok? ==>
            var g := GenPrologue(f).value;
            && ScopeKinds(g.scopes) == AfterParams([map[]], f.params)
            && ResultKind(g.result) == if DeclaredKind(f.ret).Nothing? then None else Some(DeclaredKind(f.ret))
  {
    hide GenResult, GenParams, AfterParams, ScopeKinds, IRType, DeclaredKind, TyKind, ProperParams;
    var g0 := NewBlock(EnterScope(BLANK));
    DeclaredKindIs(f.ret);
    ResultAccepted(g0, IRType(f.ret), f.name == "");
    ProperAtFirst(f.params);
    OneScope(g0.scopes);
    if GenResult(g0, IRType(f.ret), f.name == "").Ok? {
      ParamsAccepted(GenResult(g0, IRType(f.ret), f.name == "").value, f.params, 0);
    }
  }

  lemma OneScope(sc: Scopes<nat>)
    requires sc == [map[]]
    ensures ScopeKinds(sc) == [map[]]
  {
    EnterKinds([]);
  }

  /** A function is accepted exactly when it has no fault. */
  lemma FunctionAccepted(sigs: Sigs, f: Function)
    ensures Error(GenFunction(sigs, f)) == FunctionFault(SigKinds(sigs), f)
  {
    hide GenPrologue, GenStmts, GenEpilogue, ProperHeader, BodyFault, AfterParams, ScopeKinds, SigKinds, DeclaredKind, ResultKind, AfterBody;
    PrologueAccepted(f);
    if GenPrologue(f).Ok? {
      BodyAccepted(sigs, GenPrologue(f).value, f.body);
    }
  }

  lemma {:induction false} DefinitionsAccepted(sigs: Sigs, fs: seq<Function>)
    ensures Error(DefineAll(sigs, fs)) == DefinitionsFault(SigKinds(sigs), fs)
    decreases fs
  {
    hide GenFunction, FunctionFault, SigKinds;
    if fs != [] {
      FunctionAccepted(sigs, fs[0]);
      DefinitionsAccepted(sigs, fs[1..]);
    }
  }

  lemma {:induction false} SignaturesDeclared(sigs: Sigs, fs: seq<Function>)
    ensures DeclareAll(sigs, fs).Err? ==> DeclareAll(sigs, fs).error == InternalError
    ensures DeclareAll(sigs, fs).Ok? ==> SigKinds(DeclareAll(sigs, fs).value) == AddSignatures(SigKinds(sigs), fs)
    decreases fs
  {
    hide SigOf, SignatureOf, FunctionName, SigKinds;
    if fs != [] && Declare(sigs, fs[0]).Ok? {
      SignaturesDeclared(Declare(sigs, fs[0]).value, fs[1..]);
      SignatureDeclared(sigs, fs[0]);
    }
  }

  lemma SignatureDeclared(sigs: Sigs, f: Function)
    ensures SigKinds(sigs[FunctionName(f) := SigOf(f)]) == SigKinds(sigs)[NameOf(f) := SignatureOf(f)]
  {
    hide IRType, DeclaredKind, TyKind;
    forall i | 0 <= i < |f.params| ensures TyKind(IRType(f.params[i].ty)) == DeclaredKind(f.params[i].ty) {
      DeclaredKindIs(f.params[i].ty);
    }
    DeclaredKindIs(f.ret);
    assert SigKind(SigOf(f)) == SignatureOf(f);
  }

  lemma {:induction false} LastSignature(sigs: Signatures, fs: seq<Function>, f: Function)
    ensures AddSignatures(sigs, fs + [f]) == AddSignatures(sigs, fs)[NameOf(f) := SignatureOf(f)]
    decreases fs
  {
    hide SignatureOf, NameOf;
    if fs == [] {
      assert [] + [f] == [f];
    } else {
      assert (fs + [f])[1..] == fs[1..] + [f];
      LastSignature(sigs[NameOf(fs[0]) := SignatureOf(fs[0])], fs[1..], f);
    }
  }

  lemma {:induction false} LastDefinition(sigs: Signatures, fs: seq<Function>, f: Function)
    ensures DefinitionsFault(sigs, fs + [f]) == First(DefinitionsFault(sigs, fs), DefinitionFault(sigs, f))
    decreases fs
  {
    hide DefinitionFault;
    if fs == [] {
      assert [] + [f] == [f];
    } else {
      assert (fs + [f])[1..] == fs[1..] + [f];
      LastDefinition(sigs, fs[1..], f);
    }
  }

  lemma LibraryKinds()
    ensures SigKinds(BUILTINS) == LIBRARY
  {
    var one, none: seq<Ty> := [Ptr], [];
    assert TyKinds(one) == [Pointer] && TyKinds(none) == [];
  }

  /** The two ways of saying that names are new and distinct. */
  lemma NamesDistinct(m: Module)
    ensures NewNames(BUILTINS, AllFunctions(m)) <==> DistinctNames(m)
  {
    hide FunctionName, NameOf;
    var fs, n := AllFunctions(m), |m.functions|;
    forall f: Function ensures FunctionName(f) == NameOf(f) { SameName(f); }
    assert forall i | 0 <= i < n :: fs[i] == m.functions[i];
    if m.entry.Some? {
      assert fs[n] == m.entry.value && |fs| == n + 1;
    }
    if NewNames(BUILTINS, fs) {
      assert forall f | f in m.functions :: f in fs;
    }
  }

  lemma SameName(f: Function)
    ensures FunctionName(f) == NameOf(f)
  {
  }

  /** A module is accepted exactly when it has no fault; otherwise its first fault is the
      error reported. */
  lemma ModuleAccepted(m: Module)
    ensures Error(GenModule(m)) == ModuleFault(m)
  {
    hide DeclareAll, DefineAll, DistinctNames, NewNames, SigKinds, DefinitionsFault, AddSignatures, DefinitionFault, SignatureOf, NameOf;
    var fs := AllFunctions(m);
    DeclaresEach(BUILTINS, fs);
    SignaturesDeclared(BUILTINS, fs);
    NamesDistinct(m);
    LibraryKinds();
    if DeclareAll(BUILTINS, fs).Ok? {
      var sigs := DeclareAll(BUILTINS, fs).value;
      DefinitionsAccepted(sigs, fs);
      if m.entry.Some? {
        LastSignature(LIBRARY, m.functions, m.entry.value);
        LastDefinition(SigKinds(sigs), m.functions, m.entry.value);
      } else {
        assert fs == m.functions;
      }
    }
  }

  /** The rules are sound: a function without a fault, called with arguments of its parameter
      types, never goes wrong, whatever the world does.  It never operates on things it has
      no operation for, uses a name that means nothing, or leaves without its result. */
  lemma FaultlessNeverGoesWrong(sigs: Sigs, env: Env, f: Function, args: seq<int>, t: seq<Event>, o: Outcome, t': seq<Event>)
    requires FunctionFault(SigKinds(sigs), f).None? && Preservation.Fits(f, args)
    requires Preservation.SourceEnds(sigs, env, f, args, t, o, t')
    ensures o != IllFormed
  {
    hide FunctionFault, SigKinds, GenFunction, Preservation.SourceEnds, Preservation.CodeEnds, Preservation.Fits;
    FunctionAccepted(sigs, f);
    if o != Undeclared {
      Preservation.SourceThenCode(sigs, env, f, GenFunction(sigs, f).value, args, t, o, t');
    }
  }
}
