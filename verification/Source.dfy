/** What a program means: a big-step semantics of the syntax tree in which `fuel` bounds
    the number of times a loop may go round. */
module Source {
  import opened Ast
  import opened IR
  import opened Typing

  /** A declaration that was passed over leaves its variable `Missing`. */
  datatype Content = Missing | Undef | Def(n: int)

  type Frame = Scopes<Content>

  /** The result slot holds `initial` until a return statement stores a value. */
  datatype Ctx = Ctx(sigs: Sigs, env: Env, ret: Ty, initial: Option<int>)

  // ----- expressions -----

  datatype Eval = Value(ty: Ty, n: int, trace: seq<Event>) | Halt(o: Outcome, trace: seq<Event>)

  predicate Convertible(from: Ty, to: Ty) { from.Ptr? == to.Ptr? && !from.Void? && !to.Void? }

  /** `None` when a floating point value does not fit the integer type. */
  function Convert(fu: FloatUnit, from: Ty, to: Ty, n: int): Option<int> {
    if from == to || from.Ptr? then Some(n)
    else if from.IsInt() && to.IsInt() then Some(Wrap(to, n))
    else if from.IsInt() then Some(fu.fromInt(to, n))
    else if to.IsFloat() then Some(fu.cast(from, to, n))
    else
      match fu.toInt(from, n)
      case Some(k) => Some(Wrap(to, k))
      case None => None
  }

  function ConvertTo(fu: FloatUnit, v: Eval, to: Ty): Eval {
    match v
    case Halt(_, _) => v
    case Value(from, n, t) =>
      if !Convertible(from, to) then Halt(IllFormed, t)
      else
        match Convert(fu, from, to, n)
        case Some(k) => Value(to, k, t)
        case None => Halt(Undefined, t)
  }

  predicate IsComparison(op: Op) { op.EQ? || op.GE? || op.GT? || op.LE? || op.LT? }

  /** Exact integer arithmetic; `None` where the language leaves it undefined. */
  function Exact(op: Op, bits: nat, a: int, b: int): Option<int> {
    match op
    case PLUS => Some(a + b)
    case MINUS => Some(a - b)
    case TIMES => Some(a * b)
    case DIV => if b == 0 then None else Some(TruncDiv(a, b))
    case SHL => if 0 <= b < bits then Some(a * Pow2(b)) else None
    case SHR => if 0 <= b < bits then Some(a / Pow2(b)) else None
    case _ => None
  }

  /** The exact result reduced to the type, except that a quotient has to fit. */
  function IntArith(op: Op, ty: Ty, a: int, b: int): Option<int> {
    match Exact(op, ty.Bits(), a, b)
    case None => None
    case Some(n) => if op.DIV? && !InRange(ty, n) then None else Some(Wrap(ty, n))
  }

  function IntCompare(op: Op, a: int, b: int): bool {
    match op
    case EQ => a == b
    case GE => a >= b
    case GT => a > b
    case LE => a <= b
    case _ => a < b
  }

  function FloatCompare(fu: FloatUnit, op: Op, ty: Ty, a: int, b: int): bool {
    match op
    case EQ => fu.eq(ty, a, b)
    case GE => fu.ge(ty, a, b)
    case GT => fu.gt(ty, a, b)
    case LE => fu.le(ty, a, b)
    case _ => fu.lt(ty, a, b)
  }

  function FloatArith(fu: FloatUnit, op: Op, ty: Ty, a: int, b: int): Option<int> {
    match op
    case PLUS => Some(fu.add(ty, a, b))
    case MINUS => Some(fu.sub(ty, a, b))
    case TIMES => Some(fu.mul(ty, a, b))
    case DIV => Some(fu.div(ty, a, b))
    case _ => None
  }

  /** An operator on two operands already of type `ty`; a comparison gives a boolean. */
  function Operate(fu: FloatUnit, op: Op, ty: Ty, a: int, b: int, t: seq<Event>): Eval {
    if ty.IsInt() then
      if IsComparison(op) then Value(I1, Flag(IntCompare(op, a, b)), t)
      else
        match IntArith(op, ty, a, b)
        case Some(n) => Value(ty, n, t)
        case None => Halt(Undefined, t)
    else if ty.IsFloat() then
      if IsComparison(op) then Value(I1, Flag(FloatCompare(fu, op, ty, a, b)), t)
      else
        match FloatArith(fu, op, ty, a, b)
        case Some(n) => Value(ty, n, t)
        case None => Halt(IllFormed, t)
    else Halt(IllFormed, t)
  }

  /** Both operands converted to the type of the expression, left one first. */
  function Combine(cx: Ctx, op: Op, ty: Ty, lt: Ty, x: int, rt: Ty, y: int, t: seq<Event>): Eval {
    var a := ConvertTo(cx.env.fu, Value(lt, x, t), ty);
    var b := ConvertTo(cx.env.fu, Value(rt, y, t), ty);
    if a.Halt? then a else if b.Halt? then b
    else Operate(cx.env.fu, op, ty, a.n, b.n, t)
  }

  datatype EvalArgs = Values(vs: seq<int>, trace: seq<Event>) | ArgsHalt(o: Outcome, trace: seq<Event>)

  function CallOutcome(fn: string, ret: Ty, vs: seq<int>, t: seq<Event>, r: CallResult): Eval {
    var t' := t + [EvCall(fn, vs)];
    match r
    case CallReturns(es, n) => Value(ret, Wrap(ret, n), t' + es)
    case CallAborts(es) => Halt(Aborted, t' + es)
    case CallUndefined(es) => Halt(Undefined, t' + es)
    case CallDiverges(shown) => Halt(Diverged(shown), t')
  }

  function ReadVar(v: Binding<Content>, t: seq<Event>): Eval {
    match v.val
    case Def(n) => Value(v.ty, n, t)
    case Undef => Halt(Undefined, t)
    case Missing => Halt(Undeclared, t)
  }

  function EvalExpr(cx: Ctx, fr: Frame, e: Expr, t: seq<Event>): Eval
    decreases e
  {
    match e
    case IntLit(n) => Value(I32, Wrap(I32, n), t)
    case FloatLit(b) => Value(F64, b, t)
    case Identifier(x) =>
      (match Level(fr, x)
       case None => Halt(IllFormed, t)
       case Some(i) => ReadVar(fr[i][x], t))
    case Binary(op, l, r, _) =>
      var lv := EvalExpr(cx, fr, l, t);
      if lv.Halt? then lv
      else
        var rv := EvalExpr(cx, fr, r, lv.trace);
        if rv.Halt? then rv
        else (
          match CalcType(cx.sigs, fr, e)
          case Err(_) => Halt(IllFormed, rv.trace)
          case Ok(ty) => Combine(cx, op, ty, lv.ty, lv.n, rv.ty, rv.n, rv.trace))
    case Call(f, args) =>
      if f !in cx.sigs then Halt(IllFormed, t)
      else
        match EvalActuals(cx, fr, args, cx.sigs[f].params, t)
        case ArgsHalt(o, t') => Halt(o, t')
        case Values(vs, t') => CallOutcome(f, cx.sigs[f].ret, vs, t', cx.env.call(t', f, vs))
  }

  /** Arguments are evaluated and converted one after the other. */
  function EvalActuals(cx: Ctx, fr: Frame, args: seq<Expr>, params: seq<Ty>, t: seq<Event>): EvalArgs
    decreases args
  {
    if args == [] || params == [] then
      if args == [] && params == [] then Values([], t) else ArgsHalt(IllFormed, t)
    else
      match ConvertTo(cx.env.fu, EvalExpr(cx, fr, args[0], t), params[0])
      case Halt(o, t') => ArgsHalt(o, t')
      case Value(_, n, t') =>
        match EvalActuals(cx, fr, args[1..], params[1..], t')
        case ArgsHalt(o, t2) => ArgsHalt(o, t2)
        case Values(vs, t2) => Values([n] + vs, t2)
  }

  datatype Cond = Truth(b: bool, trace: seq<Event>) | CondHalt(o: Outcome, trace: seq<Event>)

  /** Integers are true when they are not zero; the truth of a floating point value
      that is not itself a comparison is undefined. */
  function EvalCond(cx: Ctx, fr: Frame, e: Expr, t: seq<Event>): Cond {
    match EvalExpr(cx, fr, e, t)
    case Halt(o, t') => CondHalt(o, t')
    case Value(ty, n, t') =>
      if ty.IsInt() then Truth(n != 0, t')
      else if ty.IsFloat() then CondHalt(Undefined, t')
      else CondHalt(IllFormed, t')
  }

  // ----- statements -----

  datatype Exec =
    | Normal(fr: Frame, trace: seq<Event>)
    | Leaving(value: Option<int>, trace: seq<Event>)
    | Stop(o: Outcome, trace: seq<Event>)
    | NoFuel(trace: seq<Event>)

  /** What became of a chain of cases: a body ran, or no condition held. */
  datatype Choice = Taken(r: Exec) | NoneTaken(fr: Frame, trace: seq<Event>)

  function SetVar(fr: Frame, i: nat, x: string, c: Content): Frame
    requires i < |fr| && x in fr[i]
  {
    fr[i := fr[i][x := Binding(fr[i][x].ty, c)]]
  }

  function Pop(fr: Frame): Frame { if fr == [] then [] else fr[..|fr| - 1] }

  /** What is printed: small integers as their unsigned value, floats as doubles. */
  function Printed(fu: FloatUnit, ty: Ty, n: int): int {
    if ty.IsInt() && ty.Bits() < 32 then Unsigned(ty, n)
    else if ty.F32? then fu.cast(F32, F64, n)
    else n
  }

  /** Names a statement declares in the scope it stands in.  Case bodies have no scope
      of their own; loop and else bodies have. */
  function Decls(s: Stmt): map<string, Ty>
    decreases s
  {
    match s
    case Vardecl(x, t, _) => map[x := IRType(t)]
    case Branch(_, cases, _) => DeclsOfCases(cases)
    case _ => map[]
  }

  function DeclsIn(body: seq<Stmt>): map<string, Ty>
    decreases body
  {
    if body == [] then map[] else Decls(body[0]) + DeclsIn(body[1..])
  }

  function DeclsOfCases(cases: seq<Case>): map<string, Ty>
    decreases cases
  {
    if cases == [] then map[] else DeclsIn(cases[0].body) + DeclsOfCases(cases[1..])
  }

  /** Declarations that were passed over are visible, but without a variable. */
  function MarkMissing(fr: Frame, ds: map<string, Ty>): Frame {
    if fr == [] then [] else fr[..|fr| - 1] + [fr[|fr| - 1] + map x | x in ds :: Binding(ds[x], Missing)]
  }

  function ExecVardecl(cx: Ctx, fr: Frame, x: string, ty: Ty, init: Option<Expr>, t: seq<Event>): Exec {
    if ty.Void? || fr == [] || x in fr[|fr| - 1] then Stop(IllFormed, t)
    else
      var fr1 := Bind(fr, x, Binding(ty, Undef));
      match init
      case None => Normal(fr1, t)
      case Some(e) =>
        match ConvertTo(cx.env.fu, EvalExpr(cx, fr1, e, t), ty)
        case Halt(o, t') => Stop(o, t')
        case Value(_, n, t') => Normal(Bind(fr, x, Binding(ty, Def(n))), t')
  }

  function ExecAssign(cx: Ctx, fr: Frame, x: string, e: Expr, t: seq<Event>): Exec {
    var v := EvalExpr(cx, fr, e, t);
    if v.Halt? then Stop(v.o, v.trace)
    else
      match Level(fr, x)
      case None => Stop(IllFormed, v.trace)
      case Some(i) =>
        match ConvertTo(cx.env.fu, v, fr[i][x].ty)
        case Halt(o, t') => Stop(o, t')
        case Value(_, n, t') =>
          if fr[i][x].val.Missing? then Stop(Undeclared, t') else Normal(SetVar(fr, i, x, Def(n)), t')
  }

  /** Reading a boolean has no defined result: what is read is an integer, and only
      part of it is loaded back. */
  function ExecInput(cx: Ctx, fr: Frame, x: string, t: seq<Event>): Exec {
    match Level(fr, x)
    case None => Stop(IllFormed, t)
    case Some(i) =>
      var ty, got := fr[i][x].ty, cx.env.input(t, fr[i][x].ty);
      var t' := t + [EvRead(ty, got)];
      if !ty.IsInt() && !ty.IsFloat() then Stop(IllFormed, t)
      else if ty.I1? then Stop(Undefined, t')
      else if fr[i][x].val.Missing? then Stop(Undeclared, t)
      else
        match got
        case None => Normal(fr, t')
        case Some(n) => Normal(SetVar(fr, i, x, Def(Wrap(ty, n))), t')
  }

  function ExecPrint(cx: Ctx, fr: Frame, e: Expr, t: seq<Event>): Exec {
    match EvalExpr(cx, fr, e, t)
    case Halt(o, t') => Stop(o, t')
    case Value(ty, n, t') =>
      if ty.IsInt() || ty.IsFloat() then Normal(fr, t' + [EvPrint(ty, Printed(cx.env.fu, ty, n))])
      else Stop(IllFormed, t')
  }

  function ExecReturn(cx: Ctx, fr: Frame, value: Option<Expr>, t: seq<Event>): Exec {
    match value
    case None => Leaving(cx.initial, t)
    case Some(e) =>
      match ConvertTo(cx.env.fu, EvalExpr(cx, fr, e, t), cx.ret)
      case Halt(o, t') => Stop(o, t')
      case Value(_, n, t') => Leaving(Some(n), t')
  }

  function ExecAssert(cx: Ctx, fr: Frame, e: Expr, t: seq<Event>): Exec {
    match EvalCond(cx, fr, e, t)
    case CondHalt(o, t') => Stop(o, t')
    case Truth(b, t') => if b then Normal(fr, t') else Stop(Aborted, t')
  }

  function ExecStmt(cx: Ctx, fr: Frame, s: Stmt, t: seq<Event>, fuel: nat): Exec
    decreases fuel, s, 1
  {
    match s
    case Assert(e) => ExecAssert(cx, fr, e, t)
    case Input(x) => ExecInput(cx, fr, x, t)
    case Abort => Stop(Aborted, t)
    case Vardecl(x, ty, init) => ExecVardecl(cx, fr, x, IRType(ty), init, t)
    case Return(v) => ExecReturn(cx, fr, v, t)
    case Print(e) => ExecPrint(cx, fr, e, t)
    case Assign(x, e) => ExecAssign(cx, fr, x, e, t)
    case ExprStmt(e) =>
      (match EvalExpr(cx, fr, e, t)
       case Halt(o, t') => Stop(o, t')
       case Value(_, _, t') => Normal(fr, t'))
    case Branch(_, cases, els) =>
      (match ExecCases(cx, fr, cases, t, fuel)
       case Taken(r) => r
       case NoneTaken(fr1, t1) => ExecElse(cx, fr1, els, t1, fuel))
    case Loop(_, _) => ExecLoop(cx, fr, s, t, fuel)
  }

  function ExecStmts(cx: Ctx, fr: Frame, body: seq<Stmt>, t: seq<Event>, fuel: nat): Exec
    decreases fuel, body
  {
    if body == [] then Normal(fr, t)
    else
      match ExecStmt(cx, fr, body[0], t, fuel)
      case Normal(fr1, t1) => ExecStmts(cx, fr1, body[1..], t1, fuel)
      case r => r
  }

  /** Do the body in a scope of its own, then test the condition outside it. */
  function ExecLoop(cx: Ctx, fr: Frame, s: Stmt, t: seq<Event>, fuel: nat): Exec
    requires s.Loop?
    decreases fuel, s, 0
  {
    if fuel == 0 then NoFuel(t)
    else
      match ExecStmts(cx, fr + [map[]], s.body, t, fuel)
      case Normal(fr1, t1) =>
        (match EvalCond(cx, Pop(fr1), s.cond, t1)
         case CondHalt(o, t2) => Stop(o, t2)
         case Truth(b, t2) => if b then ExecLoop(cx, Pop(fr1), s, t2, fuel - 1) else Normal(Pop(fr1), t2))
      case r => r
  }

  /** The body of the first case whose condition holds, if there is one. */
  function ExecCases(cx: Ctx, fr: Frame, cases: seq<Case>, t: seq<Event>, fuel: nat): Choice
    decreases fuel, cases
  {
    if cases == [] then NoneTaken(fr, t)
    else
      match EvalCond(cx, fr, cases[0].cond, t)
      case CondHalt(o, t1) => Taken(Stop(o, t1))
      case Truth(b, t1) =>
        if !b then ExecCases(cx, MarkMissing(fr, DeclsIn(cases[0].body)), cases[1..], t1, fuel)
        else
          match ExecStmts(cx, fr, cases[0].body, t1, fuel)
          case Normal(fr1, t2) => Taken(Normal(MarkMissing(fr1, DeclsOfCases(cases[1..])), t2))
          case r => Taken(r)
  }

  function ExecElse(cx: Ctx, fr: Frame, els: Else, t: seq<Event>, fuel: nat): Exec
    decreases fuel, els
  {
    match els
    case NoElse => Normal(fr, t)
    case Else(body) =>
      match ExecStmts(cx, fr + [map[]], body, t, fuel)
      case Normal(fr1, t1) => Normal(Pop(fr1), t1)
      case r => r
  }

  // ----- functions -----

  function BindParams(fr: Frame, params: seq<Param>, args: seq<int>): Frame
    requires |params| == |args|
    decreases params
  {
    if params == [] || fr == [] then fr
    else BindParams(Bind(fr, params[0].name, Binding(IRType(params[0].ty), Def(args[0]))), params[1..], args[1..])
  }

  /** Falling off the end, or returning without a value, gives what the result slot
      holds; a function with a result that never got one has no defined behaviour. */
  function Finish(ret: Ty, v: Option<int>): Outcome {
    if ret.Void? then Returned(None)
    else
      match v
      case Some(n) => Returned(Some(n))
      case None => Undefined
  }

  datatype Ending = Finished(o: Outcome, trace: seq<Event>) | OutOfFuel(trace: seq<Event>)

  function FunctionCtx(sigs: Sigs, env: Env, f: Function): Ctx {
    Ctx(sigs, env, IRType(f.ret), if f.name == "" && !IRType(f.ret).Void? then Some(0) else None)
  }

  function RunFunction(sigs: Sigs, env: Env, f: Function, args: seq<int>, t: seq<Event>, fuel: nat): Ending
    requires |args| == |f.params|
  {
    var cx := FunctionCtx(sigs, env, f);
    match ExecStmts(cx, BindParams([map[]], f.params, args), f.body, t, fuel)
    case Normal(_, t') => Finished(Finish(cx.ret, cx.initial), t')
    case Leaving(v, t') => Finished(Finish(cx.ret, v), t')
    case Stop(o, t') => Finished(o, t')
    case NoFuel(t') => OutOfFuel(t')
  }
}
