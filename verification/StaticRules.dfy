/** The static rules of the language: which names are visible, of what kind an expression
    is, and the first fault of a piece of program in the order it is read.  Widths do not
    matter to them, and they know nothing of the generator or of the code. */
module StaticRules {
  import opened Ast
  import opened Typing

  /** All a rule asks of a type. */
  datatype Kind = Whole | Fractional | Pointer | Nothing {
    predicate IsNumber() { Whole? || Fractional? }
  }

  /** The names of the open scopes, the innermost last. */
  type Names = seq<map<string, Kind>>

  datatype Signature = Signature(ret: Kind, params: seq<Kind>)

  type Signatures = map<string, Signature>

  type Fault = Option<CgError>

  function First(a: Fault, b: Fault): Fault { if a.Some? then a else b }

  function Unless(ok: bool, e: CgError): Fault { if ok then None else Some(e) }

  function DeclaredKind(t: VarType): Kind {
    if t.pointer then Pointer
    else
      match t.base
      case VOID => Nothing
      case FLOAT => Fractional
      case DOUBLE => Fractional
      case _ => Whole
  }

  // ----- names -----

  /** Some open scope has the name. */
  predicate Known(names: Names, x: string) { exists i | 0 <= i < |names| :: x in names[i] }

  /** The innermost scope that has the name. */
  function Innermost(names: Names, x: string): (r: nat)
    requires Known(names, x)
    ensures r < |names| && x in names[r] && forall i | r < i < |names| :: x !in names[i]
  {
    if x in names[|names| - 1] then |names| - 1 else Innermost(names[..|names| - 1], x)
  }

  function KindOf(names: Names, x: string): Kind
    requires Known(names, x)
  {
    names[Innermost(names, x)][x]
  }

  function Enter(names: Names): Names { names + [map[]] }

  function AddName(names: Names, x: string, k: Kind): (r: Names)
    ensures |r| == |names| && (names != [] ==> r[..|r| - 1] == names[..|names| - 1])
  {
    if names == [] then [] else names[..|names| - 1] + [names[|names| - 1][x := k]]
  }

  /** The names after a statement: case bodies declare into the scope of the branch, loop
      and else bodies only into their own. */
  function After(names: Names, s: Stmt): (r: Names)
    ensures |r| == |names| && (names != [] ==> r[..|r| - 1] == names[..|names| - 1])
    decreases s
  {
    match s
    case Vardecl(x, t, _) => AddName(names, x, DeclaredKind(t))
    case Branch(_, cases, _) => AfterCases(names, cases)
    case _ => names
  }

  function AfterBody(names: Names, body: seq<Stmt>): (r: Names)
    ensures |r| == |names| && (names != [] ==> r[..|r| - 1] == names[..|names| - 1])
    decreases body
  {
    if body == [] then names else AfterBody(After(names, body[0]), body[1..])
  }

  function AfterCases(names: Names, cases: seq<Case>): (r: Names)
    ensures |r| == |names| && (names != [] ==> r[..|r| - 1] == names[..|names| - 1])
    decreases cases
  {
    if cases == [] then names else AfterCases(AfterBody(names, cases[0].body), cases[1..])
  }

  // ----- expressions -----

  /** What kind of thing an expression is that has no fault. */
  function ExprKind(sigs: Signatures, names: Names, e: Expr): Kind {
    match e
    case IntLit(_) => Whole
    case FloatLit(_) => Fractional
    case Identifier(x) => if Known(names, x) then KindOf(names, x) else Nothing
    case Call(f, _) => if f in sigs then sigs[f].ret else Nothing
    case Binary(_, l, r, _) =>
      if ExprKind(sigs, names, l).Fractional? || ExprKind(sigs, names, r).Fractional? then Fractional else Whole
  }

  /** Operators take numbers, and shifts take whole ones. */
  function OperandsFault(op: Op, l: Kind, r: Kind): Fault {
    First(Unless(!l.Pointer? && !r.Pointer?, PointerArithmetic),
          First(Unless(!l.Nothing? && !r.Nothing?, OperateOnVoid),
                Unless(op !in {SHL, SHR} || (l.Whole? && r.Whole?), NotForFloats)))
  }

  /** Numbers convert to numbers and pointers to pointers. */
  function ConversionFault(from: Kind, to: Kind, mismatch: CgError): Fault {
    First(Unless(from.Pointer? <==> to.Pointer?, mismatch), Unless(!from.Nothing? && !to.Nothing?, InternalError))
  }

  function ExprFault(sigs: Signatures, names: Names, e: Expr): Fault
    decreases e
  {
    match e
    case Identifier(x) => Unless(Known(names, x), UndefinedVariable)
    case Binary(op, l, r, _) =>
      First(ExprFault(sigs, names, l),
            First(ExprFault(sigs, names, r), OperandsFault(op, ExprKind(sigs, names, l), ExprKind(sigs, names, r))))
    case Call(f, args) =>
      if f !in sigs then Some(UndefinedFunction) else ArgsFault(sigs, names, args, sigs[f].params)
    case _ => None
  }

  /** As many arguments as parameters, each convertible to its own. */
  function ArgsFault(sigs: Signatures, names: Names, args: seq<Expr>, params: seq<Kind>): Fault
    decreases args
  {
    if args == [] then Unless(params == [], ArgumentCount)
    else
      First(ExprFault(sigs, names, args[0]),
            if params == [] then Some(ArgumentCount)
            else
              First(ConversionFault(ExprKind(sigs, names, args[0]), params[0], CannotPass),
                    ArgsFault(sigs, names, args[1..], params[1..])))
  }

  function ConditionFault(sigs: Signatures, names: Names, e: Expr): Fault {
    First(ExprFault(sigs, names, e), Unless(ExprKind(sigs, names, e).IsNumber(), NotBoolean))
  }

  /** The expression as the value of a variable, a parameter or a result of kind `to`. */
  function ValueFault(sigs: Signatures, names: Names, e: Expr, to: Kind, mismatch: CgError): Fault {
    First(ExprFault(sigs, names, e), ConversionFault(ExprKind(sigs, names, e), to, mismatch))
  }

  // ----- statements -----

  /** In a function with a result of kind `result`, or without one. */
  function StmtFault(sigs: Signatures, names: Names, result: Option<Kind>, s: Stmt): Fault
    decreases s
  {
    match s
    case Assert(e) => ConditionFault(sigs, names, e)
    case Input(x) =>
      if !Known(names, x) then Some(UndefinedVariable) else Unless(KindOf(names, x).IsNumber(), CannotRead)
    case Abort => None
    case Vardecl(x, t, init) =>
      if DeclaredKind(t).Nothing? || names == [] then Some(InternalError)
      else if x in names[|names| - 1] then Some(Redefinition)
      else (
        match init
        case None => None
        case Some(e) => ValueFault(sigs, AddName(names, x, DeclaredKind(t)), e, DeclaredKind(t), CannotInitialize))
    case Return(value) => (
      match value
      case None => None
      case Some(e) =>
        if result.None? then First(ExprFault(sigs, names, e), Some(InternalError))
        else ValueFault(sigs, names, e, result.value, CannotReturn))
    case Print(e) => First(ExprFault(sigs, names, e), Unless(ExprKind(sigs, names, e).IsNumber(), CannotPrint))
    case Assign(x, e) =>
      First(ExprFault(sigs, names, e),
            if !Known(names, x) then Some(UndefinedVariable)
            else ConversionFault(ExprKind(sigs, names, e), KindOf(names, x), CannotAssign))
    case ExprStmt(e) => ExprFault(sigs, names, e)
    case Loop(body, cond) =>
      First(BodyFault(sigs, Enter(names), result, body), ConditionFault(sigs, names, cond))
    case Branch(_, cases, els) =>
      First(CasesFault(sigs, names, result, cases), ElseFault(sigs, AfterCases(names, cases), result, els))
  }

  function BodyFault(sigs: Signatures, names: Names, result: Option<Kind>, body: seq<Stmt>): Fault
    decreases body
  {
    if body == [] then None
    else First(StmtFault(sigs, names, result, body[0]), BodyFault(sigs, After(names, body[0]), result, body[1..]))
  }

  function CasesFault(sigs: Signatures, names: Names, result: Option<Kind>, cases: seq<Case>): Fault
    decreases cases
  {
    if cases == [] then None
    else
      First(CaseFault(sigs, names, result, cases[0]),
            CasesFault(sigs, AfterBody(names, cases[0].body), result, cases[1..]))
  }

  function CaseFault(sigs: Signatures, names: Names, result: Option<Kind>, c: Case): Fault
    decreases c
  {
    First(ConditionFault(sigs, names, c.cond), BodyFault(sigs, names, result, c.body))
  }

  function ElseFault(sigs: Signatures, names: Names, result: Option<Kind>, els: Else): Fault
    decreases els
  {
    match els
    case NoElse => None
    case Else(body) => BodyFault(sigs, Enter(names), result, body)
  }

  // ----- functions and modules -----

  /** The result of an entry point is a whole number if it has any, and parameters have
      types and names of their own. */
  predicate ProperHeader(f: Function) {
    && (f.name == "" ==> DeclaredKind(f.ret).Whole? || DeclaredKind(f.ret).Nothing?)
    && (forall p | p in f.params :: !DeclaredKind(p.ty).Nothing?)
    && (forall i, j | 0 <= i < j < |f.params| :: f.params[i].name != f.params[j].name)
  }

  function AfterParams(names: Names, params: seq<Param>): (r: Names)
    ensures |r| == |names|
    decreases params
  {
    if params == [] then names else AfterParams(AddName(names, params[0].name, DeclaredKind(params[0].ty)), params[1..])
  }

  function FunctionFault(sigs: Signatures, f: Function): Fault {
    First(Unless(ProperHeader(f), InternalError),
          BodyFault(sigs, AfterParams([map[]], f.params),
                    if DeclaredKind(f.ret).Nothing? then None else Some(DeclaredKind(f.ret)), f.body))
  }

  /** A function without a body is only declared. */
  function DefinitionFault(sigs: Signatures, f: Function): Fault { if f.body == [] then None else FunctionFault(sigs, f) }

  function DefinitionsFault(sigs: Signatures, fs: seq<Function>): Fault {
    if fs == [] then None else First(DefinitionFault(sigs, fs[0]), DefinitionsFault(sigs, fs[1..]))
  }

  function NameOf(f: Function): string { if f.name == "" then "main" else f.name }

  function SignatureOf(f: Function): Signature {
    Signature(DeclaredKind(f.ret), seq(|f.params|, i requires 0 <= i < |f.params| => DeclaredKind(f.params[i].ty)))
  }

  function AddSignatures(sigs: Signatures, fs: seq<Function>): Signatures
    decreases fs
  {
    if fs == [] then sigs else AddSignatures(sigs[NameOf(fs[0]) := SignatureOf(fs[0])], fs[1..])
  }

  const LIBRARY: Signatures :=
    map["abort" := Signature(Nothing, []), "printf" := Signature(Whole, [Pointer]), "scanf" := Signature(Whole, [Pointer])]

  /** Every function can be called from everywhere, wherever it stands. */
  function ModuleSignatures(m: Module): Signatures {
    var sigs := AddSignatures(LIBRARY, m.functions);
    match m.entry
    case None => sigs
    case Some(f) => sigs[NameOf(f) := SignatureOf(f)]
  }

  /** No two functions have the same name, nor has any the name of a library function. */
  predicate DistinctNames(m: Module) {
    && (forall f | f in m.functions :: NameOf(f) !in {"abort", "printf", "scanf"})
    && (forall i, j | 0 <= i < j < |m.functions| :: NameOf(m.functions[i]) != NameOf(m.functions[j]))
    && (m.entry.Some? ==>
          && NameOf(m.entry.value) !in {"abort", "printf", "scanf"}
          && forall f | f in m.functions :: NameOf(f) != NameOf(m.entry.value))
  }

  function ModuleFault(m: Module): Fault {
    First(Unless(DistinctNames(m), InternalError),
          First(DefinitionsFault(ModuleSignatures(m), m.functions),
                match m.entry case None => None case Some(f) => DefinitionFault(ModuleSignatures(m), f)))
  }
}
