/** Names, scopes and the types of expressions: what the language and its IR generator
    agree on before any code runs. */
module Typing {
  import opened Ast
  import opened IR

  datatype CgError =
    | Redefinition | UndefinedVariable | UndefinedFunction
    | CannotInitialize | CannotReturn | CannotAssign | CannotPass
    | NotBoolean | CannotRead | CannotPrint
    | PointerArithmetic | OperateOnVoid | NotForFloats
    | ArgumentCount | InternalError

  datatype Result<+T> = Ok(value: T) | Err(error: CgError) {
    predicate IsFailure() { Err? }
    function PropagateFailure<U>(): Result<U>
      requires Err?
    {
      Err(error)
    }
    function Extract(): T
      requires Ok?
    {
      value
    }
  }

  datatype Sig = Sig(ret: Ty, params: seq<Ty>)

  type Sigs = map<string, Sig>

  function IRType(t: VarType): Ty {
    if t.pointer then Ptr
    else
      match t.base
      case VOID => Void
      case INTEGER => I32
      case CHAR => I8
      case FLOAT => F32
      case BOOL => I1
      case DOUBLE => F64
  }

  /** The innermost scope that has the name. */
  function Level<T>(sc: Scopes<T>, x: string): (r: Option<nat>)
    ensures r.None? ==> forall i | 0 <= i < |sc| :: x !in sc[i]
    ensures r.Some? ==> r.value < |sc| && x in sc[r.value] && forall i | r.value < i < |sc| :: x !in sc[i]
  {
    if sc == [] then None
    else if x in sc[|sc| - 1] then Some(|sc| - 1)
    else Level(sc[..|sc| - 1], x)
  }

  // ----- types of expressions -----

  function Join(l: Ty, r: Ty): Ty {
    if l == r then l
    else if l.IsFloat() || r.IsFloat() then F64
    else if l.Bits() > r.Bits() then l
    else r
  }

  function CalcType<T>(sigs: Sigs, sc: Scopes<T>, e: Expr): Result<Ty> {
    match e
    case Identifier(x) =>
      (match Level(sc, x)
       case Some(i) => Ok(sc[i][x].ty)
       case None => Err(UndefinedVariable))
    case IntLit(_) => Ok(I32)
    case FloatLit(_) => Ok(F64)
    case Call(f, _) => if f in sigs then Ok(sigs[f].ret) else Err(UndefinedFunction)
    case Binary(_, l, r, _) =>
      var lt :- CalcType(sigs, sc, l);
      var rt :- CalcType(sigs, sc, r);
      if lt.Void? || rt.Void? then Err(OperateOnVoid)
      else if lt == rt then Ok(lt)
      else if lt.Ptr? || rt.Ptr? then Err(PointerArithmetic)
      else Ok(Join(lt, rt))
  }

  /** Binds a name in the innermost scope. */
  function Bind<T>(sc: Scopes<T>, x: string, b: Binding<T>): Scopes<T>
    requires sc != []
  {
    sc[..|sc| - 1] + [sc[|sc| - 1][x := b]]
  }
}
