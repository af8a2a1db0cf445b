/** Types of expressions: the calculated type is the join of the types of the leaves,
    whatever the shape of the tree, and it is the type of the generated value. */
module Types {
  import opened Ast
  import opened IR
  import opened Typing
  import opened Codegen

  predicate Scalar(t: Ty) { t.IsInt() || t.IsFloat() }

  /** `a` is no wider than `b`. */
  predicate Below(a: Ty, b: Ty) { Join(a, b) == b }

  lemma FloatWins(a: Ty, b: Ty)
    requires Scalar(a) && Scalar(b)
    ensures a != b && (a.IsFloat() || b.IsFloat()) ==> Join(a, b) == F64
    ensures a.IsInt() && b.IsInt() ==> Join(a, b).IsInt()
  {
  }

  lemma JoinAssociates(a: Ty, b: Ty, c: Ty)
    requires Scalar(a) && Scalar(b) && Scalar(c)
    ensures Join(a, Join(b, c)) == Join(Join(a, b), c)
  {
    if a.IsFloat() || b.IsFloat() || c.IsFloat() {
      FloatWins(a, b);
      FloatWins(b, c);
    } else {
      WiderWins(a, b, c);
    }
  }

  /** On integers the join is the wider type, and there is one type of each width. */
  lemma WiderWins(a: Ty, b: Ty, c: Ty)
    requires a.IsInt() && b.IsInt() && c.IsInt()
    ensures Join(a, Join(b, c)) == Join(Join(a, b), c)
  {
    hide Join;
    IntJoin(a, b);
    IntJoin(b, c);
    IntJoin(a, Join(b, c));
    IntJoin(Join(a, b), c);
    SameWidth(Join(a, Join(b, c)), Join(Join(a, b), c));
  }

  lemma IntJoin(a: Ty, b: Ty)
    requires a.IsInt() && b.IsInt()
    ensures Join(a, b).IsInt() && Join(a, b).Bits() == if a.Bits() < b.Bits() then b.Bits() else a.Bits()
  {
  }

  lemma SameWidth(a: Ty, b: Ty)
    requires a.IsInt() && b.IsInt() && a.Bits() == b.Bits()
    ensures a == b
  {
  }

  lemma JoinLaws(a: Ty, b: Ty)
    requires Scalar(a) && Scalar(b)
    ensures Scalar(Join(a, b)) && Join(a, a) == a && Join(a, b) == Join(b, a)
    ensures Below(a, Join(a, b)) && Below(b, Join(a, b))
    ensures Below(a, b) && Below(b, a) ==> a == b
  {
  }

  lemma BelowTrans(a: Ty, b: Ty, c: Ty)
    requires Scalar(a) && Scalar(b) && Scalar(c)
    ensures Below(a, b) && Below(b, c) ==> Below(a, c)
    ensures Below(a, c) && Below(b, c) ==> Below(Join(a, b), c)
  {
    JoinAssociates(a, b, c);
  }

  /** The types of the leaves from left to right; `None` for a name that does not resolve. */
  function Leaves<T>(sigs: Sigs, sc: Scopes<T>, e: Expr): (r: seq<Option<Ty>>)
    ensures r != []
  {
    match e
    case Binary(_, l, r, _) => Leaves(sigs, sc, l) + Leaves(sigs, sc, r)
    case _ =>
      match CalcType(sigs, sc, e)
      case Ok(t) => [Some(t)]
      case Err(_) => [None]
  }

  predicate AllScalar(ts: seq<Option<Ty>>) { forall t | t in ts :: t.Some? && Scalar(t.value) }

  predicate AllPointers(ts: seq<Option<Ty>>) { forall t | t in ts :: t.Some? && t.value.Ptr? }

  /** The join of a list of leaf types. */
  function JoinAll(ts: seq<Option<Ty>>): Ty
    requires ts != [] && forall t | t in ts :: t.Some?
  {
    if |ts| == 1 then ts[0].value else Join(ts[0].value, JoinAll(ts[1..]))
  }

  lemma {:induction false} JoinAllScalar(ts: seq<Option<Ty>>)
    requires ts != [] && AllScalar(ts)
    ensures Scalar(JoinAll(ts))
    decreases |ts|
  {
    if |ts| > 1 {
      JoinAllScalar(ts[1..]);
      JoinLaws(ts[0].value, JoinAll(ts[1..]));
    }
  }

  lemma {:induction false} JoinAllAppend(a: seq<Option<Ty>>, b: seq<Option<Ty>>)
    requires a != [] && b != [] && ((AllScalar(a) && AllScalar(b)) || (AllPointers(a) && AllPointers(b)))
    ensures JoinAll(a + b) == Join(JoinAll(a), JoinAll(b))
    decreases |a|
  {
    assert (a + b)[1..] == a[1..] + b;
    if |a| > 1 {
      JoinAllAppend(a[1..], b);
      if AllScalar(a) {
        JoinAllScalar(a[1..]);
        JoinAllScalar(b);
        JoinAssociates(a[0].value, JoinAll(a[1..]), JoinAll(b));
      } else {
        JoinAllPointers(a);
        JoinAllPointers(a[1..]);
        JoinAllPointers(b);
      }
    }
  }

  lemma {:induction false} JoinAllPointers(ts: seq<Option<Ty>>)
    requires ts != [] && AllPointers(ts)
    ensures JoinAll(ts) == Ptr
    decreases |ts|
  {
    if |ts| > 1 {
      JoinAllPointers(ts[1..]);
    }
  }

  predicate Typable(ts: seq<Option<Ty>>) { (|ts| == 1 && ts[0].Some?) || AllScalar(ts) || AllPointers(ts) }

  /** How a binary node combines the types of its operands. */
  lemma BinaryType(a: seq<Option<Ty>>, b: seq<Option<Ty>>)
    requires a != [] && b != []
    ensures Typable(a + b) <==> (AllScalar(a) && AllScalar(b)) || (AllPointers(a) && AllPointers(b))
    ensures Typable(a + b) ==> Typable(a) && Typable(b) && JoinAll(a + b) == Join(JoinAll(a), JoinAll(b))
    ensures Typable(a) ==> (AllScalar(a) <==> Scalar(JoinAll(a))) && (AllPointers(a) <==> JoinAll(a) == Ptr)
    ensures Typable(b) ==> (AllScalar(b) <==> Scalar(JoinAll(b))) && (AllPointers(b) <==> JoinAll(b) == Ptr)
  {
    BinaryKinds(a, b);
    if Typable(a) { KindOf(a); }
    if Typable(b) { KindOf(b); }
    if Typable(a + b) { JoinAllAppend(a, b); }
  }

  lemma BinaryCalc<T>(sigs: Sigs, sc: Scopes<T>, e: Expr)
    requires e.Binary?
    ensures var l, r, t := CalcType(sigs, sc, e.left), CalcType(sigs, sc, e.right), CalcType(sigs, sc, e);
            && (t.Ok? <==> l.Ok? && r.Ok? && ((Scalar(l.value) && Scalar(r.value)) || (l.value == Ptr && r.value == Ptr)))
            && (t.Ok? ==> t.value == Join(l.value, r.value))
  {
  }

  /** An expression has a type exactly when it is a single typed leaf, or all its leaves
      are scalars, or all are pointers; the type is then the join of the leaf types. */
  lemma {:induction false} TypeIsJoinOfLeaves<T>(sigs: Sigs, sc: Scopes<T>, e: Expr)
    ensures var ts := Leaves(sigs, sc, e);
            && (CalcType(sigs, sc, e).Ok? <==> Typable(ts))
            && (CalcType(sigs, sc, e).Ok? ==> CalcType(sigs, sc, e).value == JoinAll(ts))
    decreases e
  {
    hide AllScalar, AllPointers, Join, Scalar;
    if e.Binary? {
      TypeIsJoinOfLeaves(sigs, sc, e.left);
      TypeIsJoinOfLeaves(sigs, sc, e.right);
      BinaryType(Leaves(sigs, sc, e.left), Leaves(sigs, sc, e.right));
      BinaryCalc(sigs, sc, e);
    } else {
      LeafKind(CalcType(sigs, sc, e));
    }
  }

  lemma LeafKind(t: Result<Ty>)
    ensures Typable([if t.Ok? then Some(t.value) else None]) <==> t.Ok?
  {
    var ts := [if t.Ok? then Some(t.value) else None];
    assert ts[0] in ts;
  }

  lemma BinaryKinds(a: seq<Option<Ty>>, b: seq<Option<Ty>>)
    ensures AllScalar(a + b) <==> AllScalar(a) && AllScalar(b)
    ensures AllPointers(a + b) <==> AllPointers(a) && AllPointers(b)
  {
    assert forall t :: t in a + b <==> t in a || t in b;
  }

  lemma KindOf(ts: seq<Option<Ty>>)
    requires (|ts| == 1 && ts[0].Some?) || (ts != [] && (AllScalar(ts) || AllPointers(ts)))
    ensures AllScalar(ts) <==> Scalar(JoinAll(ts))
    ensures AllPointers(ts) <==> JoinAll(ts) == Ptr
  {
    if AllScalar(ts) {
      JoinAllScalar(ts);
      assert ts[0] in ts;
    } else if AllPointers(ts) {
      JoinAllPointers(ts);
    }
  }

  /** The join is the least upper bound of the list. */
  lemma {:induction false} JoinAllLeast(ts: seq<Option<Ty>>, up: Ty)
    requires ts != [] && AllScalar(ts) && Scalar(up)
    ensures forall t | t in ts :: Below(t.value, JoinAll(ts))
    ensures (forall t | t in ts :: Below(t.value, up)) ==> Below(JoinAll(ts), up)
    decreases |ts|
  {
    if |ts| > 1 {
      var rest := JoinAll(ts[1..]);
      JoinAllLeast(ts[1..], up);
      JoinAllScalar(ts[1..]);
      JoinLaws(ts[0].value, rest);
      BelowTrans(ts[0].value, rest, up);
      forall t | t in ts
        ensures Below(t.value, JoinAll(ts))
      {
        if t in ts[1..] {
          BelowTrans(t.value, rest, JoinAll(ts));
        }
      }
    }
  }

  /** Only which types occur among the leaves matters: not their order, their number,
      or how the operators group them. */
  lemma SameLeavesSameType<T>(sigs: Sigs, sc: Scopes<T>, d: Expr, e: Expr)
    requires var a, b := Leaves(sigs, sc, d), Leaves(sigs, sc, e);
             AllScalar(a) && forall t :: t in a <==> t in b
    ensures CalcType(sigs, sc, d).Ok? && CalcType(sigs, sc, d) == CalcType(sigs, sc, e)
  {
    var a, b := Leaves(sigs, sc, d), Leaves(sigs, sc, e);
    assert AllScalar(b);
    TypeIsJoinOfLeaves(sigs, sc, d);
    TypeIsJoinOfLeaves(sigs, sc, e);
    JoinAllScalar(a);
    JoinAllScalar(b);
    JoinAllLeast(a, JoinAll(b));
    JoinAllLeast(b, JoinAll(a));
    JoinLaws(JoinAll(a), JoinAll(b));
  }

  predicate IsComparison(e: Expr) {
    e.Binary? && (e.op.EQ? || e.op.GE? || e.op.GT? || e.op.LE? || e.op.LT?)
  }

  /** The generated value has the calculated type, except that a comparison is a boolean. */
  lemma GeneratedType(sigs: Sigs, g: Gen, e: Expr)
    requires Ready(g) && GenExpr(sigs, g, e).Ok?
    ensures CalcType(sigs, g.scopes, e).Ok?
    ensures var v := GenExpr(sigs, g, e).value.1;
            && v.op.ty == (if IsComparison(e) then I1 else CalcType(sigs, g.scopes, e).value)
            && (v.cmp <==> IsComparison(e))
  {
    hide GenOperation;
    if e.Binary? {
      var (g1, lv) := GenExpr(sigs, g, e.left).value;
      var (g2, rv) := GenExpr(sigs, g1, e.right).value;
      assert g2.scopes == g.scopes;
      OperationType(g2, e, CalcType(sigs, g2.scopes, e).value, lv.op, rv.op);
    }
  }

  lemma OperationType(g: Gen, e: Expr, ty: Ty, l: Operand, r: Operand)
    requires Ready(g) && e.Binary? && GenOperation(g, e.op, ty, l, r).Ok?
    ensures var v := GenOperation(g, e.op, ty, l, r).value.1;
            v.op.ty == (if IsComparison(e) then I1 else ty) && (v.cmp <==> IsComparison(e))
  {
  }
}
