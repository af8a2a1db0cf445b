/** The abstract syntax tree: the shape the parser builds and that the printer and
    the IR generator walk.  Source locations are not part of it. */
module Ast {

  datatype Option<+T> = None | Some(value: T)

  /** Unsigned 64-bit payload of an integer literal. */
  type Word = n: int | 0 <= n < 0x1_0000_0000_0000_0000

  datatype Op = EQ | GE | GT | LE | LT | SHL | SHR | PLUS | MINUS | TIMES | DIV

  /** Binding strength: a larger number binds tighter. */
  function Priority(op: Op): nat {
    match op
    case EQ => 1
    case GE => 5
    case GT => 5
    case LE => 5
    case LT => 5
    case SHL => 10
    case SHR => 10
    case PLUS => 15
    case MINUS => 15
    case TIMES => 20
    case DIV => 20
  }

  datatype BaseType = VOID | INTEGER | CHAR | FLOAT | BOOL | DOUBLE

  datatype VarType = VarType(base: BaseType, pointer: bool)

  /** `FloatLit` holds the bit pattern of the literal: floating point is an opaque sort. */
  datatype Expr =
    | Identifier(name: string)
    | IntLit(value: Word)
    | FloatLit(bits: int)
    | Binary(op: Op, left: Expr, right: Expr, semi: bool)
    | Call(fn: string, args: seq<Expr>)

  datatype Case = Case(cond: Expr, body: seq<Stmt>)

  datatype Else = NoElse | Else(body: seq<Stmt>)

  datatype Stmt =
    | Assert(e: Expr)
    | Input(name: string)
    | Abort
    | Branch(lead: string, cases: seq<Case>, els: Else)
    | Vardecl(name: string, ty: VarType, init: Option<Expr>)
    | Loop(body: seq<Stmt>, cond: Expr)
    | Return(value: Option<Expr>)
    | Print(e: Expr)
    | Assign(name: string, e: Expr)
    | ExprStmt(e: Expr)

  datatype Param = Param(name: string, ty: VarType)

  /** The entry point is the function without a name. */
  datatype Function = Function(name: string, ret: VarType, params: seq<Param>, body: seq<Stmt>)

  datatype Module = Module(functions: seq<Function>, entry: Option<Function>)
}
