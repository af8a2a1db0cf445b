/** Semantic preservation for whole functions: the code of a function, run from its
    entry block, ends exactly as the function's source does, or like it never ends. */
module Preservation {
  import opened Ast
  import opened IR
  import opened Typing
  import opened Codegen
  import opened Source
  import opened Growth
  import opened SimExpr
  import opened SimStmt
  import Progress

  /** Arguments of the right number, each in the range of its parameter's type. */
  predicate Fits(f: Function, args: seq<int>) {
    |args| == |f.params| && forall i | 0 <= i < |args| :: InRange(IRType(f.params[i].ty), args[i])
  }

  // ----- the prologue -----

  lemma ParamShape(g: Gen, g': Gen, params: seq<Param>, index: nat) returns (g1: Gen)
    requires Ready(g) && params != [] && GenParams(g, params, index) == Ok(g')
    ensures var x, ty := params[0].name, IRType(params[0].ty);
            && g.scopes != [] && x !in g.scopes[|g.scopes| - 1] && !ty.Void?
            && g1 == Emit(NewSlot(g, ty), Store(Arg(ty, index), g.nextSlot)).(scopes := Bind(g.scopes, x, Binding(ty, g.nextSlot)))
            && Ready(g1) && GenParams(g1, params[1..], index + 1) == Ok(g')
  {
    var x, ty := params[0].name, IRType(params[0].ty);
    g1 := Emit(NewSlot(g, ty), Store(Arg(ty, index), g.nextSlot)).(scopes := Bind(g.scopes, x, Binding(ty, g.nextSlot)));
  }

  lemma {:induction false} ParamsGrow(g: Gen, g': Gen, params: seq<Param>, index: nat)
    requires Ready(g) && GenParams(g, params, index) == Ok(g')
    ensures BlocksGrow(g, g') && g'.cur == g.cur && |g'.blocks| == |g.blocks|
    decreases params
  {
    if params != [] {
      var g1 := ParamShape(g, g', params, index);
      ParamsGrow(g1, g', params[1..], index + 1);
    }
  }

  lemma ParamGrows(ret: Ty, g: Gen, g1: Gen, x: string, ty: Ty, index: nat)
    requires Sound(ret, g) && x !in g.scopes[|g.scopes| - 1]
    requires g1 == Emit(NewSlot(g, ty), Store(Arg(ty, index), g.nextSlot)).(scopes := Bind(g.scopes, x, Binding(ty, g.nextSlot)))
    ensures Sound(ret, g1) && Avoids(g.scopes, g.nextSlot)
  {
    assert g.nextSlot + 1 == g1.nextSlot && Grows(g, g1, map[x := ty]);
    GrowsSound(ret, g, g1, map[x := ty]);
    FreshSlot(ret, g);
  }

  /** One parameter: a slot, and the argument stored in it. */
  lemma ParamSim(w: World, g: Gen, g1: Gen, x: string, ty: Ty, index: nat, fr: Frame, m: MState) returns (m1: MState)
    requires Sound(w.cx.ret, g) && Simulates(w, g, m, fr, m.trace) && x !in g.scopes[|g.scopes| - 1]
    requires g1 == Emit(NewSlot(g, ty), Store(Arg(ty, index), g.nextSlot)).(scopes := Bind(g.scopes, x, Binding(ty, g.nextSlot)))
    requires Within(g1, w.code) && index < |w.args| && InRange(ty, w.args[index])
    ensures Sound(w.cx.ret, g1) && Go(w, m, 2) == Live(m1)
    ensures Simulates(w, g1, m1, Bind(fr, x, Binding(ty, Def(w.args[index]))), m.trace)
  {
    hide ExecInstr, Wrap, Within, Agree, Distinct, Below, InRange, Avoids, NewSlot;
    ParamPlace(g, ty, index);
    var slot, g0 := g.nextSlot, NewSlot(g, ty);
    WithinMore(Emit(g0, Store(Arg(ty, index), slot)), g1, w.code);
    m1 := ArgStored(w, g, ty, index, m);
    FreshSlot(w.cx.ret, g);
    BindAgrees(g.scopes, fr, m.mem, x, ty, slot, Def(w.args[index]));
    ParamGrows(w.cx.ret, g, g1, x, ty, index);
  }

  lemma ParamPlace(g: Gen, ty: Ty, index: nat)
    requires Ready(g)
    ensures Ready(NewSlot(g, ty))
    ensures var g1 := Emit(NewSlot(g, ty), Store(Arg(ty, index), g.nextSlot));
            && g1.cur == g.cur && |g1.blocks[g.cur]| == |g.blocks[g.cur]| + 2 && g1.result == g.result && g1.scopes == g.scopes
  {
  }

  lemma ArgStored(w: World, g: Gen, ty: Ty, index: nat, m: MState) returns (m1: MState)
    requires Ready(g) && At(g, m) && index < |w.args|
    requires Within(Emit(NewSlot(g, ty), Store(Arg(ty, index), g.nextSlot)), w.code)
    ensures Go(w, m, 2) == Live(m1)
    ensures m1 == m.(pc := m.pc + 2, mem := m.mem[g.nextSlot := Cell(ty, Some(w.args[index]))])
  {
    hide ExecInstr, Within, Run;
    var slot, g0 := g.nextSlot, NewSlot(g, ty);
    WithinEmit(g0, Store(Arg(ty, index), slot), g0.cur, w.code);
    AllocaSteps(w, g, ty, m);
    var m0 := m.(pc := m.pc + 1, mem := m.mem[slot := Cell(ty, None)]);
    StoreSteps(w, g0, Arg(ty, index), slot, w.args[index], m0);
    GoOn(w, m, m0, 1, 1);
    m1 := m.(pc := m.pc + 2, mem := m.mem[slot := Cell(ty, Some(w.args[index]))]);
    assert m0.mem[slot := Cell(ty, Some(w.args[index]))] == m1.mem;
  }

  lemma {:induction false} ParamsSim(w: World, g: Gen, g': Gen, params: seq<Param>, index: nat, fr: Frame, m: MState)
    returns (k: nat, m': MState)
    requires Sound(w.cx.ret, g) && Simulates(w, g, m, fr, m.trace)
    requires GenParams(g, params, index) == Ok(g') && Within(g', w.code) && index + |params| == |w.args|
    requires forall i | 0 <= i < |params| :: InRange(IRType(params[i].ty), w.args[index + i])
    ensures Go(w, m, k) == Live(m') && Sound(w.cx.ret, g') && m'.trace == m.trace
    ensures Simulates(w, g', m', BindParams(fr, params, w.args[index..]), m.trace)
    decreases params
  {
    hide ExecInstr, Wrap, Within, GenParams, Distinct, Below, Agree, InRange;
    k, m' := 0, m;
    if params == [] {
      NoParams(g, g', index);
      NoBindings(fr, w.args[index..]);
    } else {
      var x, ty := params[0].name, IRType(params[0].ty);
      var g1 := ParamShape(g, g', params, index);
      ParamsGrow(g1, g', params[1..], index + 1);
      WithinBefore(g1, g', w.code);
      var m1 := ParamSim(w, g, g1, x, ty, index, fr, m);
      SameTop(g, fr, m.mem);
      var fr1 := Bind(fr, x, Binding(ty, Def(w.args[index])));
      var k2, m2 := ParamsSim(w, g1, g', params[1..], index + 1, fr1, m1);
      GoOn(w, m, m1, 2, k2);
      k, m' := 2 + k2, m2;
      assert w.args[index..][1..] == w.args[index + 1..];
    }
  }

  lemma NoParams(g: Gen, g': Gen, index: nat)
    requires Ready(g) && GenParams(g, [], index) == Ok(g')
    ensures g' == g
  {
  }

  lemma NoBindings(fr: Frame, args: seq<int>)
    requires args == []
    ensures BindParams(fr, [], args) == fr
  {
  }

  /** Before any parameter: one empty scope and nothing stored but the result slot. */
  lemma ResultSim(w: World, g1: Gen, entryPoint: bool, t: seq<Event>) returns (k: nat, m: MState)
    requires GenResult(NewBlock(EnterScope(BLANK)), w.cx.ret, entryPoint) == Ok(g1) && Within(g1, w.code)
    requires w.cx.initial == if entryPoint && !w.cx.ret.Void? then Some(0) else None
    ensures Ready(g1) && Sound(w.cx.ret, g1) && g1.cur == 0 && |g1.blocks| == 1
    ensures Go(w, Entry(t), k) == Live(m) && Simulates(w, g1, m, [map[]], t) && m.trace == t
  {
    hide ExecInstr, Wrap, EnsureType, GenResult, Within, Run, Distinct, Below, Avoids;
    var g0 := NewBlock(EnterScope(BLANK));
    var m0 := Entry(t);
    ResultFacts(g1, w.cx.ret, entryPoint);
    NoSteps(w, m0);
    k, m := 0, m0;
    if !w.cx.ret.Void? {
      var ga := NewSlot(g0, w.cx.ret).(result := Some(Binding(w.cx.ret, 0)));
      var m1 := m0.(pc := 1, mem := map[0 := Cell(w.cx.ret, None)]);
      ResultWithin(g0, g1, ga, w.cx.ret, entryPoint, w.code);
      AllocaSteps(w, g0, w.cx.ret, m0);
      k, m := 1, m1;
      if entryPoint {
        var k2, m2 := ZeroSim(w, ga, g1, m1);
        GoOn(w, m0, m1, 1, k2);
        k, m := 1 + k2, m2;
      }
    }
  }

  lemma ResultFacts(g1: Gen, ret: Ty, entryPoint: bool)
    requires GenResult(NewBlock(EnterScope(BLANK)), ret, entryPoint) == Ok(g1)
    ensures Ready(g1) && Sound(ret, g1) && g1.cur == 0 && |g1.blocks| == 1 && g1.scopes == [map[]]
    ensures ret.Void? ==> g1.blocks == [[]]
    ensures !ret.Void? ==> g1.result == Some(Binding(ret, 0))
  {
  }

  lemma ResultWithin(g0: Gen, g1: Gen, ga: Gen, ret: Ty, entryPoint: bool, code: Blocks)
    requires g0 == NewBlock(EnterScope(BLANK)) && !ret.Void? && GenResult(g0, ret, entryPoint) == Ok(g1) && Within(g1, code)
    requires ga == NewSlot(g0, ret).(result := Some(Binding(ret, 0)))
    ensures Within(NewSlot(g0, ret), code) && Ready(ga)
    ensures !entryPoint ==> g1 == ga
    ensures entryPoint ==> ret.IsInt() && EnsureType(ga, Const(I64, 0), ret, InternalError).Ok?
    ensures entryPoint ==> var (g2, zero) := EnsureType(ga, Const(I64, 0), ret, InternalError).value; g1 == Emit(g2, Store(zero, 0))
  {
    if entryPoint {
      var (g2, zero) := EnsureType(ga, Const(I64, 0), ret, InternalError).value;
      WithinEmit(g2, Store(zero, 0), g2.cur, code);
      WithinAppends(ga, g2, code);
    }
  }

  /** The entry point's result starts out as zero. */
  lemma ZeroSim(w: World, ga: Gen, g1: Gen, m: MState) returns (k: nat, m': MState)
    requires Ready(ga) && At(ga, m) && w.cx.ret.IsInt() && EnsureType(ga, Const(I64, 0), w.cx.ret, InternalError).Ok?
    requires var (g2, zero) := EnsureType(ga, Const(I64, 0), w.cx.ret, InternalError).value; g1 == Emit(g2, Store(zero, 0))
    requires Within(g1, w.code) && 0 in m.mem && m.mem[0].ty == w.cx.ret
    ensures Go(w, m, k) == Live(m') && At(g1, m') && m'.trace == m.trace && m'.mem == m.mem[0 := Cell(w.cx.ret, Some(0))]
  {
    hide ExecInstr, Wrap, EnsureType, ConvertTo, Within;
    var (g2, zero) := EnsureType(ga, Const(I64, 0), w.cx.ret, InternalError).value;
    WithinEmit(g2, Store(zero, 0), g2.cur, w.code);
    ZeroConverts(w.cx.env.fu, w.cx.ret, m.trace);
    var k1, m1 := ConvertComputes(w, ga, Const(I64, 0), w.cx.ret, InternalError, 0, m);
    StoreSteps(w, g2, zero, 0, 0, m1);
    GoOn(w, m, m1, k1, 1);
    k := k1 + 1;
    m' := m1.(pc := m1.pc + 1, mem := m1.mem[0 := Cell(w.cx.ret, Some(0))]);
  }

  lemma PrologueShape(f: Function, g: Gen) returns (g1: Gen, g2: Gen)
    requires GenPrologue(f) == Ok(g)
    ensures GenResult(NewBlock(EnterScope(BLANK)), IRType(f.ret), f.name == "") == Ok(g1) && Ready(g1)
    ensures GenParams(g1, f.params, 0) == Ok(g2) && Ready(g2) && g == CreateBlock(g2).(exit := |g2.blocks|)
  {
    hide GenParams, GenResult;
    g1 := GenResult(NewBlock(EnterScope(BLANK)), IRType(f.ret), f.name == "").value;
    g2 := GenParams(g1, f.params, 0).value;
  }

  lemma PrologueSim(w: World, f: Function, g: Gen, t: seq<Event>) returns (k: nat, m: MState)
    requires GenPrologue(f) == Ok(g) && Within(g, w.code) && Fits(f, w.args)
    requires w.cx == FunctionCtx(w.cx.sigs, w.cx.env, f)
    ensures Sound(w.cx.ret, g) && g.exit < |g.blocks| && g.cur != g.exit && g.blocks[g.exit] == []
    ensures Go(w, Entry(t), k) == Live(m) && Simulates(w, g, m, BindParams([map[]], f.params, w.args), t)
  {
    hide ExecInstr, Wrap, GenParams, GenResult, Within, Sound, Simulates, GenPrologue, Run;
    var g1, g2 := PrologueShape(f, g);
    assert g.blocks[..|g2.blocks|] == g2.blocks;
    WithinMore(g2, g, w.code);
    ParamsGrow(g1, g2, f.params, 0);
    WithinBefore(g1, g2, w.code);
    var k1, m1 := ResultSim(w, g1, f.name == "", t);
    var k2, m2 := ParamsSim(w, g1, g2, f.params, 0, [map[]], m1);
    assert w.args[0..] == w.args;
    GoOn(w, Entry(t), m1, k1, k2);
    k, m := k1 + k2, m2;
    ExitCreated(w, g2, g, BindParams([map[]], f.params, w.args), m, t);
  }

  /** Creating the exit block changes nothing for the code generated so far. */
  lemma ExitCreated(w: World, g: Gen, g': Gen, fr: Frame, m: MState, t: seq<Event>)
    requires Sound(w.cx.ret, g) && Simulates(w, g, m, fr, t) && g' == CreateBlock(g).(exit := |g.blocks|)
    ensures Sound(w.cx.ret, g') && Simulates(w, g', m, fr, t)
    ensures g'.exit < |g'.blocks| && g'.cur != g'.exit && g'.blocks[g'.exit] == []
  {
    hide Distinct, Below, Avoids, Agree;
  }

  // ----- the epilogue -----

  /** Generation at the beginning of the exit block. */
  function AtExit(g: Gen): (r: Gen)
    requires Ready(g) && g.exit < |g.blocks|
    ensures Ready(r)
  {
    InsertBlock(Emit(g, Br(g.exit)), g.exit).(cur := g.exit)
  }

  function ResultLoaded(g: Gen, b: Binding<nat>): (r: Gen)
    requires Ready(g)
    ensures Ready(r)
  {
    Define(g, Load(g.nextReg, b.ty, b.val))
  }

  lemma EpilogueShape(g: Gen)
    requires Ready(g) && g.exit < |g.blocks|
    ensures var g1 := AtExit(g);
            GenEpilogue(g) ==
              match g.result
              case None => Emit(g1, RetVoid)
              case Some(b) => Emit(ResultLoaded(g1, b), Ret(Reg(b.ty, g1.nextReg)))
    ensures g.cur != g.exit && g.blocks[g.exit] == [] ==> AtExit(g).cur == g.exit && AtExit(g).blocks[g.exit] == []
  {
  }

  lemma LoadSteps(w: World, g: Gen, b: Binding<nat>, v: Option<int>, m: MState)
    requires Ready(g) && At(g, m) && Within(ResultLoaded(g, b), w.code) && b.val in m.mem && m.mem[b.val] == Cell(b.ty, v)
    ensures Go(w, m, 1) == SetReg(m, g.nextReg, v)
  {
    assert ResultLoaded(g, b).blocks == Emit(g, Load(g.nextReg, b.ty, b.val)).blocks;
    EmitSteps(w, g, Load(g.nextReg, b.ty, b.val), m);
  }

  lemma RetSteps(w: World, g: Gen, v: Operand, n: int, m: MState)
    requires Ready(g) && At(g, m) && Within(Emit(g, Ret(v)), w.code) && OperandValue(w.args, m, v) == Some(n)
    ensures Go(w, m, 1) == Done(Returned(Some(n)), m.trace)
  {
    EmitSteps(w, g, Ret(v), m);
  }

  lemma RetVoidSteps(w: World, g: Gen, m: MState)
    requires Ready(g) && At(g, m) && Within(Emit(g, RetVoid), w.code)
    ensures Go(w, m, 1) == Done(Returned(None), m.trace)
  {
    EmitSteps(w, g, RetVoid, m);
  }

  /** From the exit block the function returns what its result slot holds. */
  lemma ExitSim(w: World, g: Gen, m: MState, v: Option<int>) returns (k: nat)
    requires Ready(g) && g.exit < |g.blocks| && g.cur != g.exit && g.blocks[g.exit] == []
    requires Within(GenEpilogue(g), w.code) && (g.result.Some? <==> !w.cx.ret.Void?)
    requires m.blk == g.exit && m.pc == 0 && ResultHolds(g, m.mem, v)
    ensures Go(w, m, k) == Done(Finish(w.cx.ret, v), m.trace)
  {
    hide Wrap, ExecInstr, GenEpilogue, AtExit, ResultLoaded, Within, Run;
    var g1 := AtExit(g);
    EpilogueShape(g);
    match g.result
    case None =>
      RetVoidSteps(w, g1, m);
      k := 1;
    case Some(b) =>
      var g2, reg := ResultLoaded(g1, b), Reg(b.ty, g1.nextReg);
      WithinEmit(g2, Ret(reg), g2.cur, w.code);
      LoadSteps(w, g1, b, v, m);
      k := 1;
      if v.Some? {
        var m1 := m.(pc := 1, regs := m.regs[g1.nextReg := v.value]);
        LoadedPlace(g1, b);
        RetSteps(w, g2, reg, v.value, m1);
        GoOn(w, m, m1, 1, 1);
        k := 2;
      }
  }

  lemma LoadedPlace(g: Gen, b: Binding<nat>)
    requires Ready(g)
    ensures ResultLoaded(g, b).cur == g.cur && |ResultLoaded(g, b).blocks[g.cur]| == |g.blocks[g.cur]| + 1
  {
  }

  /** What a statement list's outcome makes of the whole function. */
  function Conclude(cx: Ctx, r: Exec): Ending {
    match r
    case Normal(_, t) => Finished(Finish(cx.ret, cx.initial), t)
    case Leaving(v, t) => Finished(Finish(cx.ret, v), t)
    case Stop(o, t) => Finished(o, t)
    case NoFuel(t) => OutOfFuel(t)
  }

  predicate EndsAs(w: World, m: MState, e: Ending, fuel: nat, k: nat) {
    match e
    case Finished(o, t) => HaltsAs(w, m, k, o, t)
    case OutOfFuel(t) => fuel <= k && Go(w, m, k).Live? && Go(w, m, k).m.trace == t
  }

  lemma BodyEnds(w: World, g: Gen, m: MState, r: Exec, fuel: nat, k1: nat) returns (k: nat)
    requires Sound(w.cx.ret, g) && g.exit < |g.blocks| && g.cur != g.exit && g.blocks[g.exit] == []
    requires Within(GenEpilogue(g), w.code) && Matches(w, g, m, r, fuel, k1)
    ensures EndsAs(w, m, Conclude(w.cx, r), fuel, k)
  {
    hide ExecInstr, Wrap, Within, Agree, Distinct, Below;
    k := k1;
    if r.Normal? || r.Leaving? {
      var m1 := Go(w, m, k1).m;
      var m2, k2 := m1, k1;
      if r.Normal? {
        EpilogueWithin(g, w.code);
        JumpSteps(w, g, g.exit, m1);
        GoOn(w, m, m1, k1, 1);
        m2, k2 := m1.(blk := g.exit, pc := 0), k1 + 1;
      }
      var v := if r.Normal? then w.cx.initial else r.value;
      var k3 := ExitSim(w, g, m2, v);
      GoOn(w, m, m2, k2, k3);
      k := k2 + k3;
    }
  }

  lemma EpilogueWithin(g: Gen, code: Blocks)
    requires Ready(g) && g.exit < |g.blocks| && g.cur != g.exit && Within(GenEpilogue(g), code)
    ensures Within(Emit(g, Br(g.exit)), code) && Within(g, code)
  {
    var e, g' := Emit(g, Br(g.exit)), GenEpilogue(g);
    forall b | 0 <= b < |e.blocks|
      ensures e.blocks[b] <= code[b]
    {
      assert e.blocks[b] <= g'.blocks[b] <= code[b];
    }
    WithinEmit(g, Br(g.exit), g.cur, code);
  }

  // ----- functions -----

  lemma FunctionShape(sigs: Sigs, f: Function, gf: Gen) returns (g: Gen, g1: Gen)
    requires GenFunction(sigs, f) == Ok(gf)
    ensures GenPrologue(f) == Ok(g) && Ready(g) && GenStmts(sigs, g, f.body) == Ok(g1) && Ready(g1)
    ensures g1.exit < |g1.blocks| && gf == GenEpilogue(g1)
  {
    hide GenPrologue, GenStmts, GenEpilogue;
    g := GenPrologue(f).value;
    g1 := GenStmts(sigs, g, f.body).value;
  }

  lemma RunMeaning(sigs: Sigs, env: Env, f: Function, args: seq<int>, t: seq<Event>, fuel: nat)
    requires |args| == |f.params|
    ensures var cx := FunctionCtx(sigs, env, f);
            RunFunction(sigs, env, f, args, t, fuel) ==
              Conclude(cx, ExecStmts(cx, BindParams([map[]], f.params, args), f.body, t, fuel))
  {
  }

  /** Semantic preservation with explicit budgets: whatever the source does with `fuel`,
      the code does in some number of steps; and while the source is still running, so
      is the code, after at least as many steps and the same events. */
  lemma FunctionCorrect(sigs: Sigs, env: Env, f: Function, gf: Gen, args: seq<int>, t: seq<Event>, fuel: nat)
    returns (k: nat)
    requires GenFunction(sigs, f) == Ok(gf) && Fits(f, args)
    ensures match RunFunction(sigs, env, f, args, t, fuel)
            case Finished(o, t') =>
              o != IllFormed && (o == Undeclared || Run(gf.blocks, env, args, Live(Entry(t)), k) == Done(o, t'))
            case OutOfFuel(t') =>
              var c := Run(gf.blocks, env, args, Live(Entry(t)), k);
              fuel <= k && c.Live? && c.m.trace == t'
  {
    hide ExecInstr, Wrap, GenStmts, GenPrologue, GenEpilogue, GenFunction, Within, Agree, Distinct, Below, ExecStmts, Grows,
         RunFunction, ResultHolds, Matches, BindParams;
    var cx := FunctionCtx(sigs, env, f);
    var w := World(cx, gf.blocks, args);
    var g, g1 := FunctionShape(sigs, f, gf);
    WithinSelf(gf);
    ExitUntouched(sigs, f, g, g1);
    EpilogueWithin(g1, w.code);
    WithinGrows(g, g1, DeclsIn(f.body), w.code);
    var k0, m := PrologueSim(w, f, g, t);
    GrowsSound(cx.ret, g, g1, DeclsIn(f.body));
    var fr := BindParams([map[]], f.params, args);
    var k1 := StmtsSim(w, g, g1, f.body, fr, m, fuel);
    var r := ExecStmts(cx, fr, f.body, t, fuel);
    RunMeaning(sigs, env, f, args, t, fuel);
    var k2 := BodyEnds(w, g1, m, r, fuel, k1);
    GoOn(w, Entry(t), m, k0, k2);
    k := k0 + k2;
  }

  /** The body's code never enters the exit block. */
  lemma ExitUntouched(sigs: Sigs, f: Function, g: Gen, g1: Gen)
    requires GenPrologue(f) == Ok(g) && Ready(g) && GenStmts(sigs, g, f.body) == Ok(g1)
    ensures g.scopes != [] && Grows(g, g1, DeclsIn(f.body)) && g1.exit == g.exit && g.exit < |g.blocks|
    ensures Ready(g1) && g1.cur != g1.exit && g1.exit < |g1.blocks| && g1.blocks[g1.exit] == []
  {
    hide GenPrologue, GenStmts, ScopesGrow;
    PrologueReady(f, g);
    StmtsGrow(sigs, g, f.body);
  }

  lemma WithinSelf(g: Gen)
    ensures Within(g, g.blocks)
  {
  }

  lemma PrologueReady(f: Function, g: Gen)
    requires GenPrologue(f) == Ok(g)
    ensures Ready(g) && g.scopes != [] && g.cur != g.exit && g.exit < |g.blocks| && g.blocks[g.exit] == []
  {
    hide GenParams, GenResult, GenPrologue;
    var g1, g2 := PrologueShape(f, g);
    ParamsGrow(g1, g2, f.params, 0);
    ResultFacts(g1, IRType(f.ret), f.name == "");
    ParamsBalanced(g1, f.params, 0);
  }

  // ----- the main theorems -----

  ghost predicate SourceEnds(sigs: Sigs, env: Env, f: Function, args: seq<int>, t: seq<Event>, o: Outcome, t': seq<Event>)
    requires |args| == |f.params|
  {
    exists fuel: nat :: RunFunction(sigs, env, f, args, t, fuel) == Finished(o, t')
  }

  ghost predicate CodeEnds(code: Blocks, env: Env, args: seq<int>, t: seq<Event>, o: Outcome, t': seq<Event>) {
    exists k: nat :: Run(code, env, args, Live(Entry(t)), k) == Done(o, t')
  }

  ghost predicate EndingShows(e: Ending, p: seq<Event>) {
    match e
    case Finished(o, t) => Shown(o, t, p)
    case OutOfFuel(t) => p <= t
  }

  /** The run, whether it ends or not, at some time has caused the events `p`. */
  ghost predicate SourceShows(sigs: Sigs, env: Env, f: Function, args: seq<int>, t: seq<Event>, p: seq<Event>)
    requires |args| == |f.params|
  {
    exists fuel: nat :: EndingShows(RunFunction(sigs, env, f, args, t, fuel), p)
  }

  ghost predicate CodeShows(code: Blocks, env: Env, args: seq<int>, t: seq<Event>, p: seq<Event>) {
    exists k: nat :: Shows(Run(code, env, args, Live(Entry(t)), k), p)
  }

  /** No run from here uses a variable whose declaration was passed over. */
  ghost predicate Allocated(sigs: Sigs, env: Env, f: Function, args: seq<int>, t: seq<Event>)
    requires |args| == |f.params|
  {
    forall t' :: !SourceEnds(sigs, env, f, args, t, Undeclared, t')
  }

  lemma SourceThenCode(sigs: Sigs, env: Env, f: Function, gf: Gen, args: seq<int>, t: seq<Event>, o: Outcome, t': seq<Event>)
    requires GenFunction(sigs, f) == Ok(gf) && Fits(f, args)
    requires SourceEnds(sigs, env, f, args, t, o, t') && o != Undeclared
    ensures CodeEnds(gf.blocks, env, args, t, o, t') && o != IllFormed
  {
    hide Run, RunFunction, GenFunction;
    var fuel: nat :| RunFunction(sigs, env, f, args, t, fuel) == Finished(o, t');
    var k := FunctionCorrect(sigs, env, f, gf, args, t, fuel);
  }

  /** A run of the code that has halted leaves the source no room to go on for ever. */
  lemma CodeThenSource(sigs: Sigs, env: Env, f: Function, gf: Gen, args: seq<int>, t: seq<Event>, o: Outcome, t': seq<Event>)
    requires GenFunction(sigs, f) == Ok(gf) && Fits(f, args) && Allocated(sigs, env, f, args, t)
    requires CodeEnds(gf.blocks, env, args, t, o, t')
    ensures SourceEnds(sigs, env, f, args, t, o, t')
  {
    hide Run, RunFunction, GenFunction, ExecInstr;
    var c := Live(Entry(t));
    var k: nat :| Run(gf.blocks, env, args, c, k) == Done(o, t');
    var k2 := FunctionCorrect(sigs, env, f, gf, args, t, k + 1);
    var e := RunFunction(sigs, env, f, args, t, k + 1);
    if e.OutOfFuel? {
      StaysDone(gf.blocks, env, args, c, k, k2);
    } else {
      assert SourceEnds(sigs, env, f, args, t, e.o, e.trace);
      HaltsOneWay(gf.blocks, env, args, c, k, k2);
    }
  }

  /** The code causes every event the source causes, in the same order, and also when
      neither of them ever ends. */
  lemma SourceShowsInCode(sigs: Sigs, env: Env, f: Function, gf: Gen, args: seq<int>, t: seq<Event>, p: seq<Event>)
    requires GenFunction(sigs, f) == Ok(gf) && Fits(f, args) && Allocated(sigs, env, f, args, t)
    requires SourceShows(sigs, env, f, args, t, p)
    ensures CodeShows(gf.blocks, env, args, t, p)
  {
    hide Run, RunFunction, GenFunction, ExecInstr, Shown;
    var fuel: nat :| EndingShows(RunFunction(sigs, env, f, args, t, fuel), p);
    var k := FunctionCorrect(sigs, env, f, gf, args, t, fuel);
    var e := RunFunction(sigs, env, f, args, t, fuel);
    if e.Finished? {
      assert SourceEnds(sigs, env, f, args, t, e.o, e.trace);
    }
    assert Shows(Run(gf.blocks, env, args, Live(Entry(t)), k), p);
  }

  /** And the code causes no others. */
  lemma CodeShowsInSource(sigs: Sigs, env: Env, f: Function, gf: Gen, args: seq<int>, t: seq<Event>, p: seq<Event>)
    requires GenFunction(sigs, f) == Ok(gf) && Fits(f, args) && Allocated(sigs, env, f, args, t)
    requires CodeShows(gf.blocks, env, args, t, p)
    ensures SourceShows(sigs, env, f, args, t, p)
  {
    hide Run, RunFunction, GenFunction, ExecInstr, Shown;
    var c := Live(Entry(t));
    var k: nat :| Shows(Run(gf.blocks, env, args, c, k), p);
    var k2 := FunctionCorrect(sigs, env, f, gf, args, t, k);
    var e := RunFunction(sigs, env, f, args, t, k);
    if e.Finished? {
      assert SourceEnds(sigs, env, f, args, t, e.o, e.trace);
    }
    ShowsLater(gf.blocks, env, args, c, k, k2, p);
    assert EndingShows(e, p);
  }

  /** Semantic preservation: the code of a function ends with an outcome and a trace of
      events exactly when its source does; one runs for ever exactly when the other does;
      and in any case the events that one causes are those the other causes. */
  lemma CodePreservesMeaning(sigs: Sigs, env: Env, f: Function, gf: Gen, args: seq<int>, t: seq<Event>)
    requires GenFunction(sigs, f) == Ok(gf) && Fits(f, args) && Allocated(sigs, env, f, args, t)
    ensures forall o, t' :: SourceEnds(sigs, env, f, args, t, o, t') <==> CodeEnds(gf.blocks, env, args, t, o, t')
    ensures forall p :: SourceShows(sigs, env, f, args, t, p) <==> CodeShows(gf.blocks, env, args, t, p)
    ensures (forall fuel: nat :: RunFunction(sigs, env, f, args, t, fuel).OutOfFuel?)
        <==> (forall k: nat :: Run(gf.blocks, env, args, Live(Entry(t)), k).Live?)
  {
    hide Run, RunFunction, GenFunction, ExecInstr, SourceEnds, CodeEnds, SourceShows, CodeShows;
    forall o, t'
      ensures SourceEnds(sigs, env, f, args, t, o, t') <==> CodeEnds(gf.blocks, env, args, t, o, t')
    {
      if SourceEnds(sigs, env, f, args, t, o, t') {
        SourceThenCode(sigs, env, f, gf, args, t, o, t');
      }
      if CodeEnds(gf.blocks, env, args, t, o, t') {
        CodeThenSource(sigs, env, f, gf, args, t, o, t');
      }
    }
    forall p
      ensures SourceShows(sigs, env, f, args, t, p) <==> CodeShows(gf.blocks, env, args, t, p)
    {
      if SourceShows(sigs, env, f, args, t, p) {
        SourceShowsInCode(sigs, env, f, gf, args, t, p);
      }
      if CodeShows(gf.blocks, env, args, t, p) {
        CodeShowsInSource(sigs, env, f, gf, args, t, p);
      }
    }
    BothRunOn(sigs, env, f, gf, args, t);
  }

  lemma BothRunOn(sigs: Sigs, env: Env, f: Function, gf: Gen, args: seq<int>, t: seq<Event>)
    requires GenFunction(sigs, f) == Ok(gf) && Fits(f, args)
    requires forall o, t' :: SourceEnds(sigs, env, f, args, t, o, t') <==> CodeEnds(gf.blocks, env, args, t, o, t')
    ensures (forall fuel: nat :: RunFunction(sigs, env, f, args, t, fuel).OutOfFuel?)
        <==> (forall k: nat :: Run(gf.blocks, env, args, Live(Entry(t)), k).Live?)
  {
    hide Run, RunFunction, GenFunction, ExecInstr;
    if k: nat :| !Run(gf.blocks, env, args, Live(Entry(t)), k).Live? {
      var c := Run(gf.blocks, env, args, Live(Entry(t)), k);
      assert c == Done(c.o, c.trace);
      assert CodeEnds(gf.blocks, env, args, t, c.o, c.trace);
      var fuel: nat :| RunFunction(sigs, env, f, args, t, fuel) == Finished(c.o, c.trace);
      assert !RunFunction(sigs, env, f, args, t, fuel).OutOfFuel?;
    }
    if fuel: nat :| !RunFunction(sigs, env, f, args, t, fuel).OutOfFuel? {
      var e := RunFunction(sigs, env, f, args, t, fuel);
      assert SourceEnds(sigs, env, f, args, t, e.o, e.trace);
      var k: nat :| Run(gf.blocks, env, args, Live(Entry(t)), k) == Done(e.o, e.trace);
      assert !Run(gf.blocks, env, args, Live(Entry(t)), k).Live?;
    }
  }

  /** The code never gets stuck: no register is used before it is defined, no jump leads
      nowhere, no block is left at its end, and `unreachable` is never reached. */
  lemma CodeNeverGetsStuck(sigs: Sigs, env: Env, f: Function, gf: Gen, args: seq<int>, t: seq<Event>, t': seq<Event>)
    requires GenFunction(sigs, f) == Ok(gf) && |args| == |f.params|
    ensures !CodeEnds(gf.blocks, env, args, t, IllFormed, t')
  {
    hide Run, GenFunction;
    if k: nat :| Run(gf.blocks, env, args, Live(Entry(t)), k) == Done(IllFormed, t') {
      Progress.NeverStuck(sigs, f, gf, env, args, t, k);
    }
  }
}
