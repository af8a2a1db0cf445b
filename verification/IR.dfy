/** The intermediate representation the generator emits: typed straight-line
    instructions in basic blocks, and a small-step machine that runs them. */
module IR {
  import opened Ast

  datatype Ty = I1 | I8 | I32 | I64 | F32 | F64 | Ptr | Void {
    predicate IsInt() { I1? || I8? || I32? || I64? }
    predicate IsFloat() { F32? || F64? }
    function Bits(): nat {
      match this
      case I1 => 1
      case I8 => 8
      case I32 => 32
      case I64 => 64
      case F32 => 32
      case F64 => 64
      case Ptr => 64
      case Void => 0
    }
  }

  /** A type paired with whatever a scope keeps for a name. */
  datatype Binding<+T> = Binding(ty: Ty, val: T)

  type Scopes<T> = seq<map<string, Binding<T>>>

  /** Integers are kept as their signed value: an `I1` is 0 or -1. */
  function Wrap(t: Ty, n: int): int {
    match t
    case I1 => (n + 1) % 2 - 1
    case I8 => (n + 0x80) % 0x100 - 0x80
    case I32 => (n + 0x8000_0000) % 0x1_0000_0000 - 0x8000_0000
    case I64 => (n + 0x8000_0000_0000_0000) % 0x1_0000_0000_0000_0000 - 0x8000_0000_0000_0000
    case _ => n
  }

  function Unsigned(t: Ty, n: int): int {
    match t
    case I1 => n % 2
    case I8 => n % 0x100
    case I32 => n % 0x1_0000_0000
    case I64 => n % 0x1_0000_0000_0000_0000
    case _ => n
  }

  predicate InRange(t: Ty, n: int) { Wrap(t, n) == n }

  function Pow2(n: nat): (r: nat)
    ensures r > 0
  {
    if n == 0 then 1 else 2 * Pow2(n - 1)
  }

  /** Division truncating toward zero. */
  function TruncDiv(a: int, b: int): int
    requires b != 0
  {
    if a >= 0 then a / b else -((-a) / b)
  }

  /** Floating point is a parameter: any total functions on bit patterns will do. */
  datatype FloatUnit = FloatUnit(
    add: (Ty, int, int) -> int, sub: (Ty, int, int) -> int,
    mul: (Ty, int, int) -> int, div: (Ty, int, int) -> int,
    eq: (Ty, int, int) -> bool, ge: (Ty, int, int) -> bool, gt: (Ty, int, int) -> bool,
    le: (Ty, int, int) -> bool, lt: (Ty, int, int) -> bool,
    toInt: (Ty, int) -> Option<int>, fromInt: (Ty, int) -> int, cast: (Ty, Ty, int) -> int)

  datatype Event =
    | EvPrint(fmt: Ty, n: int)
    | EvRead(fmt: Ty, got: Option<int>)
    | EvCall(fn: string, args: seq<int>)

  /** What a called function did: the events it caused, then how it ended.  One that never
      comes back shows events without end: `shown` has every finite beginning of them. */
  datatype CallResult =
    | CallReturns(events: seq<Event>, n: int)
    | CallAborts(events: seq<Event>)
    | CallUndefined(events: seq<Event>)
    | CallDiverges(shown: iset<seq<Event>>)

  /** The outside world answers from the history of events alone. */
  datatype Env = Env(
    fu: FloatUnit,
    input: (seq<Event>, Ty) -> Option<int>,
    call: (seq<Event>, string, seq<int>) -> CallResult)

  datatype Outcome =
    | Returned(v: Option<int>)
    | Aborted
    | Diverged(shown: iset<seq<Event>>)  // a callee never comes back
    | Undefined   // the language gives the operation no meaning
    | Undeclared  // a variable is used although its declaration did not run
    | IllFormed   // the program or the code is not well formed

  datatype BinOp = Add | Sub | Mul | SDiv | Shl | AShr | FAdd | FSub | FMul | FDiv

  datatype Pred = IEQ | INE | ISGE | ISGT | ISLE | ISLT | FOEQ | FOGE | FOGT | FOLE | FOLT

  datatype CastKind = SExt | ZExt | Trunc | FPToSI | SIToFP | FPCast

  datatype Operand =
    | Const(ty: Ty, n: int)
    | Arg(ty: Ty, index: nat)
    | Reg(ty: Ty, r: nat)

  datatype Instr =
    | Alloca(slot: nat, ty: Ty)
    | Store(v: Operand, slot: nat)
    | Load(dst: nat, ty: Ty, slot: nat)
    | Bin(dst: nat, op: BinOp, a: Operand, b: Operand)
    | Cmp(dst: nat, pred: Pred, a: Operand, b: Operand)
    | Cast(dst: nat, kind: CastKind, a: Operand, to: Ty)
    | CallFn(dst: nat, fn: string, ret: Ty, args: seq<Operand>)
    | CallAbort
    | CallPrint(fmt: Ty, v: Operand)
    | CallScan(fmt: Ty, slot: nat)
    | Br(target: nat)
    | CondBr(c: Operand, yes: nat, no: nat)
    | Ret(v: Operand)
    | RetVoid
    | Unreachable
  {
    predicate IsTerminator() { Br? || CondBr? || Ret? || RetVoid? || Unreachable? }

    function Targets(): set<nat> {
      match this
      case Br(t) => {t}
      case CondBr(_, t, f) => {t, f}
      case _ => {}
    }
  }

  type Blocks = seq<seq<Instr>>

  /** A stack slot: its type and, once written, its value. */
  datatype Cell = Cell(ty: Ty, val: Option<int>)

  datatype MState = MState(blk: nat, pc: nat, regs: map<nat, int>, mem: map<nat, Cell>, trace: seq<Event>)

  /** At the entry of a function, after the events `t`. */
  function Entry(t: seq<Event>): MState { MState(0, 0, map[], map[], t) }

  datatype Config = Live(m: MState) | Done(o: Outcome, trace: seq<Event>)

  function OperandValue(args: seq<int>, m: MState, v: Operand): Option<int> {
    match v
    case Const(_, n) => Some(n)
    case Arg(_, i) => if i < |args| then Some(args[i]) else None
    case Reg(_, r) => if r in m.regs then Some(m.regs[r]) else None
  }

  function OperandValues(args: seq<int>, m: MState, vs: seq<Operand>): Option<seq<int>> {
    if vs == [] then Some([])
    else
      match (OperandValue(args, m, vs[0]), OperandValues(args, m, vs[1..]))
      case (Some(v), Some(rest)) => Some([v] + rest)
      case _ => None
  }

  /** `None` is undefined behaviour: poison is treated as undefined at once. */
  function ApplyBin(fu: FloatUnit, op: BinOp, t: Ty, a: int, b: int): Option<int> {
    match op
    case Add => Some(Wrap(t, a + b))
    case Sub => Some(Wrap(t, a - b))
    case Mul => Some(Wrap(t, a * b))
    case SDiv => if b == 0 || Wrap(t, TruncDiv(a, b)) != TruncDiv(a, b) then None else Some(TruncDiv(a, b))
    case Shl => if 0 <= b < t.Bits() then Some(Wrap(t, a * Pow2(b))) else None
    case AShr => if 0 <= b < t.Bits() then Some(Wrap(t, a / Pow2(b))) else None
    case FAdd => Some(fu.add(t, a, b))
    case FSub => Some(fu.sub(t, a, b))
    case FMul => Some(fu.mul(t, a, b))
    case FDiv => Some(fu.div(t, a, b))
  }

  function Flag(b: bool): int { if b then -1 else 0 }

  function ApplyCmp(fu: FloatUnit, p: Pred, t: Ty, a: int, b: int): Option<int> {
    if p.FOEQ? || p.FOGE? || p.FOGT? || p.FOLE? || p.FOLT? then
      match p
      case FOEQ => Some(Flag(fu.eq(t, a, b)))
      case FOGE => Some(Flag(fu.ge(t, a, b)))
      case FOGT => Some(Flag(fu.gt(t, a, b)))
      case FOLE => Some(Flag(fu.le(t, a, b)))
      case _ => Some(Flag(fu.lt(t, a, b)))
    else if !t.IsInt() then
      None  // an integer comparison of floating point values
    else
      match p
      case IEQ => Some(Flag(a == b))
      case INE => Some(Flag(a != b))
      case ISGE => Some(Flag(a >= b))
      case ISGT => Some(Flag(a > b))
      case ISLE => Some(Flag(a <= b))
      case _ => Some(Flag(a < b))
  }

  function ApplyCast(fu: FloatUnit, k: CastKind, from: Ty, to: Ty, a: int): Option<int> {
    match k
    case SExt => Some(a)
    case ZExt => Some(Unsigned(from, a))
    case Trunc => Some(Wrap(to, a))
    case FPToSI =>
      (match fu.toInt(from, a)
       case Some(n) => Some(Wrap(to, n))
       case None => None)
    case SIToFP => Some(fu.fromInt(to, a))
    case FPCast => Some(fu.cast(from, to, a))
  }

  function Next(m: MState): Config { Live(m.(pc := m.pc + 1)) }

  function SetReg(m: MState, dst: nat, v: Option<int>): Config {
    match v
    case Some(n) => Next(m.(regs := m.regs[dst := n]))
    case None => Done(Undefined, m.trace)
  }

  function Jump(m: MState, b: nat): Config { Live(m.(blk := b, pc := 0)) }

  function AfterCall(m: MState, dst: nat, fn: string, ret: Ty, vs: seq<int>, r: CallResult): Config {
    var t := m.trace + [EvCall(fn, vs)];
    match r
    case CallReturns(es, n) => Next(m.(regs := m.regs[dst := Wrap(ret, n)], trace := t + es))
    case CallAborts(es) => Done(Aborted, t + es)
    case CallUndefined(es) => Done(Undefined, t + es)
    case CallDiverges(shown) => Done(Diverged(shown), t)
  }

  function AfterScan(m: MState, fmt: Ty, slot: nat, got: Option<int>): Config {
    if slot !in m.mem then Done(Undeclared, m.trace)
    else
      var t := m.trace + [EvRead(fmt, got)];
      match got
      case None => Next(m.(trace := t))
      case Some(n) =>
        Next(m.(mem := m.mem[slot := Cell(m.mem[slot].ty, Some(Wrap(m.mem[slot].ty, n)))], trace := t))
  }

  function ExecInstr(env: Env, args: seq<int>, i: Instr, m: MState): Config {
    match i
    case Alloca(s, ty) => Next(m.(mem := m.mem[s := Cell(ty, None)]))
    case Store(v, s) =>
      (match OperandValue(args, m, v)
       case None => Done(IllFormed, m.trace)
       case Some(n) =>
         if s !in m.mem then Done(Undeclared, m.trace)
         else Next(m.(mem := m.mem[s := Cell(m.mem[s].ty, Some(n))])))
    case Load(d, ty, s) =>
      if s !in m.mem then Done(Undeclared, m.trace)
      else if m.mem[s].ty != ty then Done(Undefined, m.trace)
      else SetReg(m, d, m.mem[s].val)
    case Bin(d, op, a, b) =>
      (match (OperandValue(args, m, a), OperandValue(args, m, b))
       case (Some(x), Some(y)) => SetReg(m, d, ApplyBin(env.fu, op, a.ty, x, y))
       case _ => Done(IllFormed, m.trace))
    case Cmp(d, p, a, b) =>
      (match (OperandValue(args, m, a), OperandValue(args, m, b))
       case (Some(x), Some(y)) => SetReg(m, d, ApplyCmp(env.fu, p, a.ty, x, y))
       case _ => Done(IllFormed, m.trace))
    case Cast(d, k, a, to) =>
      (match OperandValue(args, m, a)
       case Some(x) => SetReg(m, d, ApplyCast(env.fu, k, a.ty, to, x))
       case None => Done(IllFormed, m.trace))
    case CallFn(d, fn, ret, ops) =>
      (match OperandValues(args, m, ops)
       case Some(vs) => AfterCall(m, d, fn, ret, vs, env.call(m.trace, fn, vs))
       case None => Done(IllFormed, m.trace))
    case CallAbort => Done(Aborted, m.trace)
    case CallPrint(fmt, v) =>
      (match OperandValue(args, m, v)
       case Some(n) => Next(m.(trace := m.trace + [EvPrint(fmt, n)]))
       case None => Done(IllFormed, m.trace))
    case CallScan(fmt, s) => AfterScan(m, fmt, s, env.input(m.trace, fmt))
    case Br(t) => Jump(m, t)
    case CondBr(c, yes, no) =>
      (match OperandValue(args, m, c)
       case Some(n) => Jump(m, if n != 0 then yes else no)
       case None => Done(IllFormed, m.trace))
    case Ret(v) =>
      (match OperandValue(args, m, v)
       case Some(n) => Done(Returned(Some(n)), m.trace)
       case None => Done(IllFormed, m.trace))
    case RetVoid => Done(Returned(None), m.trace)
    case Unreachable => Done(IllFormed, m.trace)
  }

  /** Running off the end of a block, or into a block that does not exist, is ill-formed. */
  function Step(code: Blocks, env: Env, args: seq<int>, c: Config): Config {
    match c
    case Done(_, _) => c
    case Live(m) =>
      if m.blk < |code| && m.pc < |code[m.blk]| then ExecInstr(env, args, code[m.blk][m.pc], m)
      else Done(IllFormed, m.trace)
  }

  function Run(code: Blocks, env: Env, args: seq<int>, c: Config, n: nat): Config
    decreases n
  {
    if n == 0 then c else Run(code, env, args, Step(code, env, args, c), n - 1)
  }

  lemma {:induction false} RunAdds(code: Blocks, env: Env, args: seq<int>, c: Config, a: nat, b: nat)
    ensures Run(code, env, args, c, a + b) == Run(code, env, args, Run(code, env, args, c, a), b)
    decreases a
  {
    if a != 0 {
      RunAdds(code, env, args, Step(code, env, args, c), a - 1, b);
    }
  }

  lemma {:induction false} RunDone(code: Blocks, env: Env, args: seq<int>, c: Config, n: nat)
    requires c.Done?
    ensures Run(code, env, args, c, n) == c
    decreases n
  {
    if n != 0 {
      RunDone(code, env, args, c, n - 1);
    }
  }

  /** A machine halts in one way only, however many steps it is given. */
  lemma HaltsOneWay(code: Blocks, env: Env, args: seq<int>, c: Config, a: nat, b: nat)
    requires Run(code, env, args, c, a).Done? && Run(code, env, args, c, b).Done?
    ensures Run(code, env, args, c, a) == Run(code, env, args, c, b)
  {
    var lo, hi := if a <= b then a else b, if a <= b then b else a;
    RunAdds(code, env, args, c, lo, hi - lo);
    RunDone(code, env, args, Run(code, env, args, c, lo), hi - lo);
  }

  // ----- the events of a run -----

  function TraceOf(c: Config): seq<Event> { if c.Live? then c.m.trace else c.trace }

  lemma StepKeepsTrace(code: Blocks, env: Env, args: seq<int>, c: Config)
    ensures TraceOf(c) <= TraceOf(Step(code, env, args, c))
  {
    hide OperandValue, OperandValues, ApplyBin, ApplyCmp, ApplyCast, Wrap;
  }

  lemma {:induction false} RunKeepsTrace(code: Blocks, env: Env, args: seq<int>, c: Config, k: nat)
    ensures TraceOf(c) <= TraceOf(Run(code, env, args, c, k))
    decreases k
  {
    hide Step, TraceOf;
    if k > 0 {
      StepKeepsTrace(code, env, args, c);
      RunKeepsTrace(code, env, args, Step(code, env, args, c), k - 1);
    }
  }

  lemma TraceGrows(code: Blocks, env: Env, args: seq<int>, c: Config, a: nat, b: nat)
    requires a <= b
    ensures TraceOf(Run(code, env, args, c, a)) <= TraceOf(Run(code, env, args, c, b))
  {
    hide Run, TraceOf;
    RunAdds(code, env, args, c, a, b - a);
    RunKeepsTrace(code, env, args, Run(code, env, args, c, a), b - a);
  }

  /** The events `p` come first of all a run causes that has caused `t` so far; if it has
      ended as `o`, all there is to come is what a callee shows that never comes back. */
  ghost predicate Shown(o: Outcome, t: seq<Event>, p: seq<Event>) {
    p <= t || (o.Diverged? && exists q :: q in o.shown && p <= t + q)
  }

  ghost predicate Shows(c: Config, p: seq<Event>) {
    match c
    case Live(m) => p <= m.trace
    case Done(o, t) => Shown(o, t, p)
  }

  /** What a run shows at some step is what it will have shown at any later one, or at the
      one where it ends. */
  lemma ShowsLater(code: Blocks, env: Env, args: seq<int>, c: Config, a: nat, b: nat, p: seq<Event>)
    requires Shows(Run(code, env, args, c, a), p) && (a <= b || Run(code, env, args, c, b).Done?)
    ensures Shows(Run(code, env, args, c, b), p)
  {
    hide Run, Shown;
    var ca, cb := Run(code, env, args, c, a), Run(code, env, args, c, b);
    if ca.Done? && cb.Done? {
      HaltsOneWay(code, env, args, c, a, b);
    } else if ca.Done? {
      StaysDone(code, env, args, c, a, b);
    } else {
      if b < a {
        StaysDone(code, env, args, c, b, a);
      }
      TraceGrows(code, env, args, c, a, b);
      ShownSoFar(cb, p);
    }
  }

  lemma StaysDone(code: Blocks, env: Env, args: seq<int>, c: Config, a: nat, b: nat)
    requires a <= b && Run(code, env, args, c, a).Done?
    ensures Run(code, env, args, c, b) == Run(code, env, args, c, a)
  {
    hide Run;
    RunAdds(code, env, args, c, a, b - a);
    RunDone(code, env, args, Run(code, env, args, c, a), b - a);
  }

  lemma ShownSoFar(c: Config, p: seq<Event>)
    requires p <= TraceOf(c)
    ensures Shows(c, p)
  {
  }
}
