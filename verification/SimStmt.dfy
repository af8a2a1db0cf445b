/** Semantic preservation, statement by statement: from matching states the generated
    code does what the source semantics says, up to a matching state, a return, a halt,
    or as many steps as there was fuel. */
module SimStmt {
  import opened Ast
  import opened IR
  import opened Typing
  import opened Codegen
  import opened Source
  import opened Growth
  import opened SimExpr

  // ----- what holds between statements -----

  predicate Distinct(sc: Scopes<nat>) {
    forall i, j, x, y | 0 <= i < |sc| && 0 <= j < |sc| && x in sc[i] && y in sc[j] && sc[i][x].val == sc[j][y].val ::
      i == j && x == y
  }

  predicate Below(sc: Scopes<nat>, n: nat) {
    forall i, x | 0 <= i < |sc| && x in sc[i] :: sc[i][x].val < n
  }

  predicate Avoids(sc: Scopes<nat>, slot: nat) {
    forall i, x | 0 <= i < |sc| && x in sc[i] :: sc[i][x].val != slot
  }

  /** No two visible variables share a slot, and none has the result's. */
  predicate Sound(ret: Ty, g: Gen) {
    && Ready(g) && g.scopes != []
    && Distinct(g.scopes) && Below(g.scopes, g.nextSlot)
    && (g.result.Some? <==> !ret.Void?)
    && (g.result.Some? ==> g.result.value.ty == ret && g.result.value.val < g.nextSlot && Avoids(g.scopes, g.result.value.val))
  }

  lemma OldOrNew(sc: Scopes<nat>, sc': Scopes<nat>, ds: map<string, Ty>, lo: nat, hi: nat, i: nat, x: string)
    requires sc != [] && ScopesGrow(sc, sc', ds, lo, hi) && i < |sc'| && x in sc'[i]
    ensures (x in sc[i] && sc'[i][x] == sc[i][x]) || (i == |sc| - 1 && x in ds && lo <= sc'[i][x].val < hi)
  {
    if i < |sc| - 1 {
      assert sc'[..|sc| - 1][i] == sc[..|sc| - 1][i];
    }
  }

  lemma GrowsSound(ret: Ty, g: Gen, g': Gen, ds: map<string, Ty>)
    requires Sound(ret, g) && Grows(g, g', ds)
    ensures Sound(ret, g')
  {
    var a: Scopes<nat>, b: Scopes<nat> := g.scopes, g'.scopes;
    var lo, hi := g.nextSlot, g'.nextSlot;
    forall i, x | 0 <= i < |b| && x in b[i]
      ensures b[i][x].val < hi && (g.result.Some? ==> b[i][x].val != g.result.value.val)
    {
      hide ScopesGrow;
      OldOrNew(a, b, ds, lo, hi, i, x);
    }
    forall i, j, x, y | 0 <= i < |b| && 0 <= j < |b| && x in b[i] && y in b[j] && b[i][x].val == b[j][y].val
      ensures i == j && x == y
    {
      OldOrNew(a, b, ds, lo, hi, i, x);
      OldOrNew(a, b, ds, lo, hi, j, y);
    }
  }

  predicate ResultHolds(g: Gen, mem: map<nat, Cell>, v: Option<int>) {
    g.result.Some? ==> g.result.value.val in mem && mem[g.result.value.val] == Cell(g.result.value.ty, v)
  }

  /** The machine is in the state the source is in: same place, same variables, same
      events, and nothing returned yet. */
  predicate Simulates(w: World, g: Gen, m: MState, fr: Frame, t: seq<Event>) {
    && Ready(g) && At(g, m) && Agree(g.scopes, fr, m.mem)
    && ResultHolds(g, m.mem, w.cx.initial) && m.trace == t
  }

  predicate Matches(w: World, g: Gen, m: MState, res: Exec, fuel: nat, k: nat) {
    var c := Go(w, m, k);
    match res
    case Normal(fr, t) => c.Live? && Simulates(w, g, c.m, fr, t)
    case Leaving(v, t) =>
      c.Live? && c.m.blk == g.exit && c.m.pc == 0 && c.m.trace == t && ResultHolds(g, c.m.mem, v)
    case Stop(o, t) => HaltsAs(w, m, k, o, t)
    case NoFuel(t) => fuel <= k && c.Live? && c.m.trace == t
  }

  lemma ThenMatches(w: World, g: Gen, m: MState, m1: MState, res: Exec, fuel: nat, k1: nat, k2: nat)
    requires Go(w, m, k1) == Live(m1) && Matches(w, g, m1, res, fuel, k2)
    ensures Matches(w, g, m, res, fuel, k1 + k2)
  {
    hide ExecInstr;
    GoOn(w, m, m1, k1, k2);
  }

  /** What does not depend on where generation goes on. */
  lemma AbruptMatches(w: World, g: Gen, g': Gen, m: MState, res: Exec, fuel: nat, k: nat)
    requires Matches(w, g, m, res, fuel, k) && !res.Normal? && g'.exit == g.exit && g'.result == g.result
    ensures Matches(w, g', m, res, fuel, k)
  {
    hide ExecInstr;
  }

  /** The state before an instruction was added, and before generation moved to `b`. */
  lemma WithinEmit(g: Gen, i: Instr, b: nat, code: Blocks)
    requires Ready(g) && Within(Emit(g, i).(cur := b), code)
    ensures Within(Emit(g, i), code) && Within(g, code)
  {
    forall k | 0 <= k < |g.blocks|
      ensures g.blocks[k] <= code[k]
    {
      assert Emit(g, i).(cur := b).blocks[k] <= code[k];
    }
  }

  /** Within a state that differs only in having more, empty, blocks. */
  lemma WithinMore(g: Gen, g': Gen, code: Blocks)
    requires |g.blocks| <= |g'.blocks| && g'.blocks[..|g.blocks|] == g.blocks && Within(g', code)
    ensures Within(g, code)
  {
    forall b | 0 <= b < |g.blocks|
      ensures g.blocks[b] <= code[b]
    {
      assert g'.blocks[..|g.blocks|][b] == g'.blocks[b] <= code[b];
    }
  }

  lemma WithinBefore(g: Gen, g': Gen, code: Blocks)
    requires Ready(g) && BlocksGrow(g, g') && Within(g', code)
    ensures Within(g, code)
  {
  }

  // ----- updating a variable -----

  lemma SetAgrees(sc: Scopes<nat>, fr: Frame, mem: map<nat, Cell>, i: nat, x: string, n: int)
    requires Agree(sc, fr, mem) && Distinct(sc) && i < |sc| && x in sc[i] && InRange(sc[i][x].ty, n)
    ensures Agree(sc, SetVar(fr, i, x, Def(n)), mem[sc[i][x].val := Cell(sc[i][x].ty, Some(n))])
  {
    hide Wrap;
    var b := sc[i][x];
    var fr', mem' := SetVar(fr, i, x, Def(n)), mem[b.val := Cell(b.ty, Some(n))];
    assert SlotHolds(b, fr[i][x], mem);
    forall j | 0 <= j < |sc|
      ensures sc[j].Keys == fr'[j].Keys && forall y | y in sc[j] :: SlotHolds(sc[j][y], fr'[j][y], mem')
    {
      forall y | y in sc[j]
        ensures SlotHolds(sc[j][y], fr'[j][y], mem')
      {
        assert SlotHolds(sc[j][y], fr[j][y], mem);
        if j == i && y == x {
        } else {
          assert sc[j][y].val != b.val;
        }
      }
    }
  }

  /** A new variable in a slot no other variable has. */
  lemma BindAgrees(sc: Scopes<nat>, fr: Frame, mem: map<nat, Cell>, x: string, ty: Ty, slot: nat, c: Content)
    requires Agree(sc, fr, mem) && sc != [] && Avoids(sc, slot) && x !in sc[|sc| - 1] && !c.Missing?
    requires c.Def? ==> InRange(ty, c.n)
    ensures Agree(Bind(sc, x, Binding(ty, slot)), Bind(fr, x, Binding(ty, c)),
                  mem[slot := Cell(ty, if c.Def? then Some(c.n) else None)])
  {
    hide Wrap;
    var sc', fr' := Bind(sc, x, Binding(ty, slot)), Bind(fr, x, Binding(ty, c));
    var mem' := mem[slot := Cell(ty, if c.Def? then Some(c.n) else None)];
    forall j | 0 <= j < |sc|
      ensures sc'[j].Keys == fr'[j].Keys && forall y | y in sc'[j] :: SlotHolds(sc'[j][y], fr'[j][y], mem')
    {
      assert sc[j].Keys == fr[j].Keys;
      forall y | y in sc'[j]
        ensures SlotHolds(sc'[j][y], fr'[j][y], mem')
      {
        if j == |sc| - 1 && y == x {
        } else {
          assert SlotHolds(sc[j][y], fr[j][y], mem);
          assert sc[j][y].val != slot;
        }
      }
    }
  }

  /** Passing over declarations adds visible names that have no variable. */
  lemma MissingAgrees(g: Gen, g': Gen, ds: map<string, Ty>, fr: Frame, mem: map<nat, Cell>)
    requires g.scopes != [] && Grows(g, g', ds) && Agree(g.scopes, fr, mem)
    ensures Agree(g'.scopes, MarkMissing(fr, ds), mem)
  {
    hide Wrap;
    var n := |g.scopes|;
    var fr' := MarkMissing(fr, ds);
    forall j | 0 <= j < n
      ensures g'.scopes[j].Keys == fr'[j].Keys
      ensures forall y | y in g'.scopes[j] :: SlotHolds(g'.scopes[j][y], fr'[j][y], mem)
    {
      assert g.scopes[j].Keys == fr[j].Keys;
      if j < n - 1 {
        assert g'.scopes[..n - 1][j] == g.scopes[..n - 1][j];
      }
    }
  }

  /** Opening a scope, and closing it again. */
  lemma ScopeAgrees(sc: Scopes<nat>, fr: Frame, mem: map<nat, Cell>)
    ensures Agree(sc, fr, mem) ==> Agree(sc + [map[]], fr + [map[]], mem)
    ensures Agree(sc, fr, mem) && sc != [] ==> Agree(sc[..|sc| - 1], Pop(fr), mem)
  {
    hide Wrap;
  }

  // ----- simple statements -----

  /** Evaluating an expression leaves everything but the trace and some registers alone. */
  lemma ExprKeeps(w: World, g: Gen, g1: Gen, m: MState, m1: MState, fr: Frame)
    requires Sound(w.cx.ret, g) && Simulates(w, g, m, fr, m.trace) && Appends(g, g1) && Ran(g1, m, m1, g.nextReg)
    ensures Sound(w.cx.ret, g1) && Simulates(w, g1, m1, fr, m1.trace)
  {
    hide Wrap;
  }

  lemma StoreSteps(w: World, g: Gen, o: Operand, slot: nat, n: int, m: MState)
    requires Ready(g) && At(g, m) && Within(Emit(g, Store(o, slot)), w.code)
    requires OperandValue(w.args, m, o) == Some(n) && slot in m.mem
    ensures Go(w, m, 1) == Live(m.(pc := m.pc + 1, mem := m.mem[slot := Cell(m.mem[slot].ty, Some(n))]))
  {
    EmitSteps(w, g, Store(o, slot), m);
  }

  lemma AbortSim(w: World, g: Gen, fr: Frame, m: MState, fuel: nat) returns (k: nat)
    requires Sound(w.cx.ret, g) && Simulates(w, g, m, fr, m.trace) && Within(Emit(g, CallAbort), w.code)
    ensures Matches(w, Emit(g, CallAbort), m, Stop(Aborted, m.trace), fuel, k)
  {
    EmitSteps(w, g, CallAbort, m);
    k := 1;
  }

  lemma ExprStmtSim(w: World, g: Gen, g': Gen, e: Expr, fr: Frame, m: MState, fuel: nat) returns (k: nat)
    requires Sound(w.cx.ret, g) && Simulates(w, g, m, fr, m.trace)
    requires GenStmt(w.cx.sigs, g, ExprStmt(e)) == Ok(g') && Within(g', w.code)
    ensures Matches(w, g', m, ExecStmt(w.cx, fr, ExprStmt(e), m.trace, fuel), fuel, k)
  {
    hide ExecInstr, Wrap, EvalExpr;
    var k1, m1 := ExprComputes(w, g, e, fr, m);
    k := k1;
    if EvalExpr(w.cx, fr, e, m.trace).Value? {
      ExprKeeps(w, g, g', m, m1, fr);
    }
  }

  /** An expression, its conversion, and a store: what assignments, initialisers and
      returned values have in common. */
  function IntoSlot(sigs: Sigs, g: Gen, e: Expr, ty: Ty, fail: CgError, slot: nat): (r: Result<Gen>)
    requires Ready(g)
    ensures r.Ok? ==> Onward(g, r.value)
  {
    var (g1, v) :- GenExpr(sigs, g, e);
    var (g2, o) :- EnsureType(g1, v.op, ty, fail);
    Ok(Emit(g2, Store(o, slot)))
  }

  /** Only the current block and the registers are affected. */
  lemma IntoSlotPlace(sigs: Sigs, g: Gen, e: Expr, ty: Ty, fail: CgError, slot: nat)
    requires Ready(g) && IntoSlot(sigs, g, e, ty, fail, slot).Ok?
    ensures var g' := IntoSlot(sigs, g, e, ty, fail, slot).value;
            g'.cur == g.cur && g'.scopes == g.scopes && g'.result == g.result && Ready(g')
  {
    hide GenExpr, EnsureType;
  }

  /** The state after a value went into a slot. */
  function Stored(g: Gen, m: MState, m': MState, ty: Ty, slot: nat, r: Eval): MState
    requires Ready(g) && r.Value?
  {
    m.(pc := |g.blocks[g.cur]|, regs := m'.regs, mem := m.mem[slot := Cell(ty, Some(r.n))], trace := r.trace)
  }

  lemma IntoSlotRuns(w: World, g: Gen, e: Expr, ty: Ty, fail: CgError, slot: nat, fr: Frame, m: MState)
    returns (k: nat, m': MState)
    requires Ready(g) && At(g, m) && Agree(g.scopes, fr, m.mem)
    requires IntoSlot(w.cx.sigs, g, e, ty, fail, slot).Ok? && Within(IntoSlot(w.cx.sigs, g, e, ty, fail, slot).value, w.code)
    ensures var r := ConvertTo(w.cx.env.fu, EvalExpr(w.cx, fr, e, m.trace), ty);
            var g' := IntoSlot(w.cx.sigs, g, e, ty, fail, slot).value;
            && (r.Halt? ==> HaltsAs(w, m, k, r.o, r.trace))
            && (r.Value? ==> InRange(ty, r.n))
            && (r.Value? && slot in m.mem && m.mem[slot].ty == ty ==>
                  Go(w, m, k) == Live(m') && m' == Stored(g', m, m', ty, slot, r))
  {
    hide ExecInstr, Wrap, EvalExpr, GenExpr, EnsureType, ConvertTo;
    var (g1, v) := GenExpr(w.cx.sigs, g, e).value;
    var (g2, o) := EnsureType(g1, v.op, ty, fail).value;
    assert Within(g2, w.code);
    var k2, m2 := ConvertedComputes(w, g, e, ty, fail, fr, m);
    k, m' := k2, m2;
    var r := ConvertTo(w.cx.env.fu, EvalExpr(w.cx, fr, e, m.trace), ty);
    if r.Value? {
      assert InRange(r.ty, r.n) && r.ty == ty;
      if slot in m.mem && m.mem[slot].ty == ty {
        StoreSteps(w, g2, o, slot, r.n, m2);
        GoOn(w, m, m2, k2, 1);
        k, m' := k2 + 1, m2.(pc := m2.pc + 1, mem := m2.mem[slot := Cell(ty, Some(r.n))]);
      }
    }
  }

  /** A name means the same variable and slot on both sides. */
  lemma VariableHolds(sc: Scopes<nat>, fr: Frame, mem: map<nat, Cell>, x: string)
    requires Agree(sc, fr, mem) && Level(sc, x).Some?
    ensures var i := Level(sc, x).value; Level(fr, x) == Some(i) && SlotHolds(sc[i][x], fr[i][x], mem)
  {
    hide Wrap;
    SameLevel(sc, fr, x);
  }

  lemma AssignShape(sigs: Sigs, g: Gen, g': Gen, x: string, e: Expr) returns (i: nat)
    requires Ready(g) && GenAssign(sigs, g, x, e) == Ok(g')
    ensures Level(g.scopes, x) == Some(i) && Ready(g') && g'.scopes == g.scopes && g'.cur == g.cur && g'.result == g.result
    ensures IntoSlot(sigs, g, e, g.scopes[i][x].ty, CannotAssign, g.scopes[i][x].val) == Ok(g')
  {
    i := Level(g.scopes, x).value;
  }

  lemma AssignSim(w: World, g: Gen, g': Gen, x: string, e: Expr, fr: Frame, m: MState, fuel: nat) returns (k: nat)
    requires Sound(w.cx.ret, g) && Simulates(w, g, m, fr, m.trace)
    requires GenAssign(w.cx.sigs, g, x, e) == Ok(g') && Within(g', w.code)
    ensures Matches(w, g', m, ExecAssign(w.cx, fr, x, e, m.trace), fuel, k)
  {
    hide ExecInstr, Wrap, EvalExpr, ConvertTo, GenAssign, ExecAssign, IntoSlot, Within, Agree, Distinct, Below;
    var i := AssignShape(w.cx.sigs, g, g', x, e);
    VariableHolds(g.scopes, fr, m.mem, x);
    AssignMeaning(w.cx, fr, x, e, m.trace);
    var b := g.scopes[i][x];
    var k2, m2 := IntoSlotRuns(w, g, e, b.ty, CannotAssign, b.val, fr, m);
    k := k2;
    var r := ConvertTo(w.cx.env.fu, EvalExpr(w.cx, fr, e, m.trace), b.ty);
    if r.Value? && !fr[i][x].val.Missing? {
      SetAgrees(g.scopes, fr, m.mem, i, x, r.n);
    }
  }

  lemma AssignMeaning(cx: Ctx, fr: Frame, x: string, e: Expr, t: seq<Event>)
    requires Level(fr, x).Some?
    ensures var i := Level(fr, x).value;
            var r := ConvertTo(cx.env.fu, EvalExpr(cx, fr, e, t), fr[i][x].ty);
            ExecAssign(cx, fr, x, e, t) ==
              if r.Halt? then Stop(r.o, r.trace)
              else if fr[i][x].val.Missing? then Stop(Undeclared, r.trace)
              else Normal(SetVar(fr, i, x, Def(r.n)), r.trace)
  {
  }

  lemma ReturnShape(sigs: Sigs, g: Gen, g': Gen, value: Option<Expr>) returns (g3: Gen)
    requires Ready(g) && GenReturn(sigs, g, value) == Ok(g')
    ensures g'.exit == g.exit && g'.result == g.result && Ready(g3) && g3.cur == g.cur
    ensures value.None? ==> g3 == g
    ensures value.Some? ==> g.result.Some?
    ensures value.Some? ==> IntoSlot(sigs, g, value.value, g.result.value.ty, CannotReturn, g.result.value.val) == Ok(g3)
    ensures forall code :: Within(g', code) ==> Within(Emit(g3, Br(g.exit)), code) && Within(g3, code)
  {
    g3 := g;
    if value.Some? {
      var b := g.result.value;
      g3 := IntoSlot(sigs, g, value.value, b.ty, CannotReturn, b.val).value;
    }
    var e := Emit(g3, Br(g.exit));
    assert g'.blocks[..|e.blocks|] == e.blocks;
    forall code | Within(g', code)
      ensures Within(e, code) && Within(g3, code)
    {
      WithinMore(e, g', code);
      WithinEmit(g3, Br(g.exit), g3.cur, code);
    }
  }

  lemma ReturnSim(w: World, g: Gen, g': Gen, value: Option<Expr>, fr: Frame, m: MState, fuel: nat) returns (k: nat)
    requires Sound(w.cx.ret, g) && Simulates(w, g, m, fr, m.trace)
    requires GenReturn(w.cx.sigs, g, value) == Ok(g') && Within(g', w.code)
    ensures Matches(w, g', m, ExecReturn(w.cx, fr, value, m.trace), fuel, k)
  {
    hide Wrap, EvalExpr, ExecInstr, ConvertTo, GenReturn, IntoSlot, Within;
    var g3 := ReturnShape(w.cx.sigs, g, g', value);
    match value
    case None =>
      JumpSteps(w, g, g.exit, m);
      k := 1;
    case Some(e) =>
      var b := g.result.value;
      var k2, m2 := IntoSlotRuns(w, g, e, b.ty, CannotReturn, b.val, fr, m);
      k := k2;
      if ConvertTo(w.cx.env.fu, EvalExpr(w.cx, fr, e, m.trace), b.ty).Value? {
        JumpSteps(w, g3, g.exit, m2);
        GoOn(w, m, m2, k2, 1);
        k := k2 + 1;
      }
  }

  lemma JumpSteps(w: World, g: Gen, b: nat, m: MState)
    requires Ready(g) && At(g, m) && Within(Emit(g, Br(b)), w.code)
    ensures Go(w, m, 1) == Live(m.(blk := b, pc := 0))
  {
    EmitSteps(w, g, Br(b), m);
  }

  lemma AllocaSteps(w: World, g: Gen, ty: Ty, m: MState)
    requires Ready(g) && At(g, m) && Within(NewSlot(g, ty), w.code)
    ensures Go(w, m, 1) == Live(m.(pc := m.pc + 1, mem := m.mem[g.nextSlot := Cell(ty, None)]))
  {
    assert NewSlot(g, ty).blocks == Emit(g, Alloca(g.nextSlot, ty)).blocks;
    EmitSteps(w, g, Alloca(g.nextSlot, ty), m);
  }

  /** A declaration before its initialiser: the variable is already visible. */
  function Declared(g: Gen, x: string, ty: Ty): (r: Gen)
    requires Ready(g) && g.scopes != []
    ensures Ready(r)
  {
    NewSlot(g, ty).(scopes := Bind(g.scopes, x, Binding(ty, g.nextSlot)))
  }

  lemma DeclareSim(w: World, g: Gen, x: string, ty: Ty, fr: Frame, m: MState) returns (m1: MState)
    requires Sound(w.cx.ret, g) && Simulates(w, g, m, fr, m.trace) && x !in g.scopes[|g.scopes| - 1]
    requires Within(Declared(g, x, ty), w.code)
    ensures Go(w, m, 1) == Live(m1) && m1 == m.(pc := m1.pc, mem := m.mem[g.nextSlot := Cell(ty, None)])
    ensures Simulates(w, Declared(g, x, ty), m1, Bind(fr, x, Binding(ty, Undef)), m.trace)
  {
    hide ExecInstr, Wrap;
    m1 := m.(pc := m.pc + 1, mem := m.mem[g.nextSlot := Cell(ty, None)]);
    FreshSlot(w.cx.ret, g);
    BindAgrees(g.scopes, fr, m.mem, x, ty, g.nextSlot, Undef);
    assert Within(NewSlot(g, ty), w.code) by {
      assert NewSlot(g, ty).blocks == Declared(g, x, ty).blocks;
    }
    AllocaSteps(w, g, ty, m);
  }

  lemma FreshSlot(ret: Ty, g: Gen)
    requires Sound(ret, g)
    ensures Avoids(g.scopes, g.nextSlot)
  {
  }

  lemma InitialiseSim(w: World, g: Gen, g': Gen, x: string, ty: Ty, e: Expr, fr: Frame, m: MState, m1: MState, r: Eval, fuel: nat)
    returns (k: nat)
    requires Sound(w.cx.ret, g) && Simulates(w, g, m, fr, m.trace) && x !in g.scopes[|g.scopes| - 1]
    requires m1 == m.(pc := m1.pc, mem := m.mem[g.nextSlot := Cell(ty, None)])
    requires Simulates(w, Declared(g, x, ty), m1, Bind(fr, x, Binding(ty, Undef)), m.trace)
    requires IntoSlot(w.cx.sigs, Declared(g, x, ty), e, ty, CannotInitialize, g.nextSlot) == Ok(g')
    requires Within(g', w.code)
    requires r == ConvertTo(w.cx.env.fu, EvalExpr(w.cx, Bind(fr, x, Binding(ty, Undef)), e, m.trace), ty)
    ensures Matches(w, g', m1, if r.Halt? then Stop(r.o, r.trace) else Normal(Bind(fr, x, Binding(ty, Def(r.n))), r.trace),
                    fuel, k)
  {
    hide ExecInstr, Wrap, EvalExpr, IntoSlot, ConvertTo, HaltsAs, Within, Distinct, Below, Agree, Avoids;
    SameTop(g, fr, m.mem);
    var slot, fr1 := g.nextSlot, Bind(fr, x, Binding(ty, Undef));
    IntoSlotPlace(w.cx.sigs, Declared(g, x, ty), e, ty, CannotInitialize, slot);
    var k2, m2 := IntoSlotRuns(w, Declared(g, x, ty), e, ty, CannotInitialize, slot, fr1, m1);
    k := k2;
    if r.Value? {
      FreshSlot(w.cx.ret, g);
      BindAgrees(g.scopes, fr, m.mem, x, ty, slot, Def(r.n));
      assert m1.mem[slot := Cell(ty, Some(r.n))] == m.mem[slot := Cell(ty, Some(r.n))];
    }
  }

  lemma VardeclShape(sigs: Sigs, g: Gen, g': Gen, x: string, ty: Ty, init: Option<Expr>)
    requires Ready(g) && GenVardecl(sigs, g, x, ty, init) == Ok(g')
    ensures g.scopes != [] && x !in g.scopes[|g.scopes| - 1] && !ty.Void?
    ensures init.None? ==> g' == Declared(g, x, ty)
    ensures init.Some? ==> IntoSlot(sigs, Declared(g, x, ty), init.value, ty, CannotInitialize, g.nextSlot) == Ok(g')
    ensures init.Some? ==> forall code :: Within(g', code) ==> Within(Declared(g, x, ty), code)
  {
    if init.Some? {
      hide ExecInstr;
      var (g3, v) := GenExpr(sigs, Declared(g, x, ty), init.value).value;
      var (g4, o) := EnsureType(g3, v.op, ty, CannotInitialize).value;
      forall code | Within(g', code)
        ensures Within(Declared(g, x, ty), code)
      {
        WithinEmit(g4, Store(o, g.nextSlot), g4.cur, code);
        WithinAppends(g3, g4, code);
        WithinAppends(Declared(g, x, ty), g3, code);
      }
    }
  }

  lemma VardeclMeaning(cx: Ctx, fr: Frame, x: string, ty: Ty, e: Expr, t: seq<Event>)
    requires fr != [] && x !in fr[|fr| - 1] && !ty.Void?
    ensures var r := ConvertTo(cx.env.fu, EvalExpr(cx, Bind(fr, x, Binding(ty, Undef)), e, t), ty);
            ExecVardecl(cx, fr, x, ty, Some(e), t) ==
              if r.Halt? then Stop(r.o, r.trace) else Normal(Bind(fr, x, Binding(ty, Def(r.n))), r.trace)
    ensures ExecVardecl(cx, fr, x, ty, None, t) == Normal(Bind(fr, x, Binding(ty, Undef)), t)
  {
  }

  lemma SameTop(g: Gen, fr: Frame, mem: map<nat, Cell>)
    requires Agree(g.scopes, fr, mem) && g.scopes != []
    ensures fr != [] && g.scopes[|g.scopes| - 1].Keys == fr[|fr| - 1].Keys
  {
  }

  lemma VardeclSim(w: World, g: Gen, g': Gen, x: string, ty: Ty, init: Option<Expr>, fr: Frame, m: MState, fuel: nat)
    returns (k: nat)
    requires Sound(w.cx.ret, g) && Simulates(w, g, m, fr, m.trace)
    requires GenVardecl(w.cx.sigs, g, x, ty, init) == Ok(g') && Within(g', w.code)
    ensures Matches(w, g', m, ExecVardecl(w.cx, fr, x, ty, init, m.trace), fuel, k)
  {
    hide ExecInstr, Wrap, EvalExpr, ConvertTo, HaltsAs, ExecVardecl, GenVardecl, IntoSlot, Within;
    VardeclShape(w.cx.sigs, g, g', x, ty, init);
    SameTop(g, fr, m.mem);
    var m1 := DeclareSim(w, g, x, ty, fr, m);
    k := 1;
    match init
    case None => VardeclMeaning(w.cx, fr, x, ty, IntLit(0), m.trace);
    case Some(e) =>
      VardeclMeaning(w.cx, fr, x, ty, e, m.trace);
      var r := ConvertTo(w.cx.env.fu, EvalExpr(w.cx, Bind(fr, x, Binding(ty, Undef)), e, m.trace), ty);
      var k2 := InitialiseSim(w, g, g', x, ty, e, fr, m, m1, r, fuel);
      ThenMatches(w, g', m, m1, ExecVardecl(w.cx, fr, x, ty, init, m.trace), fuel, 1, k2);
      k := 1 + k2;
  }

  // ----- conditions -----

  /** The condition's operand is non-zero exactly when the condition is true. */
  predicate Decides(w: World, g': Gen, o: Operand, m: MState, m': MState, lo: nat, k: nat, res: Cond)
    requires Ready(g')
  {
    match res
    case Truth(b, t) =>
      && Go(w, m, k) == Live(m') && Ran(g', m, m', lo) && m'.pc == m.pc + k && m'.trace == t
      && OperandValue(w.args, m', o).Some? && (OperandValue(w.args, m', o).value != 0 <==> b)
    case CondHalt(o, t) => HaltsAs(w, m, k, o, t) && m.pc + k <= |g'.blocks[g'.cur]|
  }

  lemma ZeroConverts(fu: FloatUnit, ty: Ty, t: seq<Event>)
    requires ty.IsInt() || ty.IsFloat()
    ensures ConvertTo(fu, Value(I64, 0, t), ty).Value? && ConvertTo(fu, Value(I64, 0, t), ty).trace == t
    ensures ty.IsInt() ==> ConvertTo(fu, Value(I64, 0, t), ty).n == 0
    ensures InRange(I64, 0) && InRange(I1, 0) && InRange(I1, -1)
  {
  }

  lemma TruthShape(g: Gen, g': Gen, v: Val, o: Operand) returns (g1: Gen, zero: Operand)
    requires Ready(g) && Truthiness(g, v) == Ok((g', o)) && !v.cmp
    ensures Ready(g1) && Appends(g, g1) && (v.op.ty.IsInt() || v.op.ty.IsFloat())
    ensures EnsureType(g, Const(I64, 0), v.op.ty, InternalError) == Ok((g1, zero)) && zero.ty == v.op.ty
    ensures g' == Define(g1, Cmp(g1.nextReg, INE, v.op, zero)) && o == Reg(I1, g1.nextReg)
    ensures forall code :: Within(g', code) ==> Within(g1, code)
  {
    var r := EnsureType(g, Const(I64, 0), v.op.ty, InternalError).value;
    g1, zero := r.0, r.1;
  }

  lemma TruthDecides(w: World, g: Gen, g': Gen, v: Val, o: Operand, n: int, m: MState) returns (k: nat, m': MState)
    requires Ready(g) && At(g, m) && Truthiness(g, v) == Ok((g', o)) && Within(g', w.code)
    requires ValDefined(v, g.nextReg) && OperandValue(w.args, m, v.op) == Some(n) && InRange(v.op.ty, n)
    ensures Decides(w, g', o, m, m', g.nextReg, k,
                    if v.op.ty.IsInt() then Truth(n != 0, m.trace) else CondHalt(Undefined, m.trace))
  {
    if v.cmp {
      k, m' := 0, m;
    } else {
      k, m' := NonZeroDecides(w, g, g', v, o, n, m);
    }
  }

  lemma NonZeroDecides(w: World, g: Gen, g': Gen, v: Val, o: Operand, n: int, m: MState) returns (k: nat, m': MState)
    requires Ready(g) && At(g, m) && Truthiness(g, v) == Ok((g', o)) && Within(g', w.code) && !v.cmp
    requires ValDefined(v, g.nextReg) && OperandValue(w.args, m, v.op) == Some(n) && InRange(v.op.ty, n)
    ensures Decides(w, g', o, m, m', g.nextReg, k,
                    if v.op.ty.IsInt() then Truth(n != 0, m.trace) else CondHalt(Undefined, m.trace))
  {
    hide ExecInstr, Wrap, ConvertTo, EnsureType, Truthiness, Within;
    var ty, fu := v.op.ty, w.cx.env.fu;
    var g1, zero := TruthShape(g, g', v, o);
    ZeroConverts(fu, ty, m.trace);
    var n0 := ConvertTo(fu, Value(I64, 0, m.trace), ty).n;
    var k1, m1 := ConvertComputes(w, g, Const(I64, 0), ty, InternalError, 0, m);
    OperandKept(w, v.op, g.nextReg, m, m1);
    CmpRuns(w, g1.nextReg, INE, v.op, zero, n, n0, m1);
    var c := ApplyCmp(fu, INE, ty, n, n0);
    var m2 := DefineComputes(w, g1, Cmp(g1.nextReg, INE, v.op, zero), I1, c, m1);
    GoOn(w, m, m1, k1, 1);
    k, m' := k1 + 1, m2;
  }

  lemma TruthTypes(g: Gen, v: Val)
    requires Ready(g) && Truthiness(g, v).Ok? && ValDefined(v, g.nextReg)
    ensures v.op.ty.IsInt() || v.op.ty.IsFloat()
  {
  }

  lemma CondDecides(w: World, g: Gen, g': Gen, e: Expr, o: Operand, fr: Frame, m: MState) returns (k: nat, m': MState)
    requires Ready(g) && At(g, m) && GenCondition(w.cx.sigs, g, e) == Ok((g', o)) && Within(g', w.code)
    requires Agree(g.scopes, fr, m.mem)
    ensures Decides(w, g', o, m, m', g.nextReg, k, EvalCond(w.cx, fr, e, m.trace))
  {
    hide ExecInstr, Wrap, EvalExpr, GenExpr, Truthiness, Within, Agree;
    var (g1, v) := GenExpr(w.cx.sigs, g, e).value;
    WithinAppends(g1, g', w.code);
    var k1, m1 := ExprComputes(w, g, e, fr, m);
    k, m' := k1, m1;
    var r := EvalExpr(w.cx, fr, e, m.trace);
    if r.Value? {
      TruthTypes(g1, v);
      var k2, m2 := TruthDecides(w, g1, g', v, o, r.n, m1);
      GoOn(w, m, m1, k1, k2);
      k, m' := k1 + k2, m2;
    }
  }

  lemma ChooseSteps(w: World, g: Gen, c: Operand, yes: nat, no: nat, n: int, m: MState)
    requires Ready(g) && At(g, m) && Within(Emit(g, CondBr(c, yes, no)), w.code) && OperandValue(w.args, m, c) == Some(n)
    ensures Go(w, m, 1) == Live(m.(blk := if n != 0 then yes else no, pc := 0))
  {
    EmitSteps(w, g, CondBr(c, yes, no), m);
  }

  /** A condition and the branch on it: where the machine is afterwards. */
  lemma BranchDecides(w: World, g: Gen, g': Gen, e: Expr, o: Operand, yes: nat, no: nat, fr: Frame, m: MState)
    returns (k: nat, m': MState)
    requires Ready(g) && At(g, m) && GenCondition(w.cx.sigs, g, e) == Ok((g', o))
    requires Within(Emit(g', CondBr(o, yes, no)), w.code) && Agree(g.scopes, fr, m.mem)
    ensures 0 < k && m.pc + k <= |g'.blocks[g'.cur]| + 1
    ensures match EvalCond(w.cx, fr, e, m.trace)
            case Truth(b, t) =>
              && Go(w, m, k) == Live(m') && m.pc + k == |g'.blocks[g'.cur]| + 1
              && m' == m.(blk := if b then yes else no, pc := 0, regs := m'.regs, trace := t)
            case CondHalt(oc, t) => HaltsAs(w, m, k, oc, t)
  {
    hide ExecInstr, Wrap, GenCondition, EvalCond;
    assert Within(g', w.code);
    var k1, m1 := CondDecides(w, g, g', e, o, fr, m);
    var res := EvalCond(w.cx, fr, e, m.trace);
    if res.Truth? {
      ChooseSteps(w, g', o, yes, no, OperandValue(w.args, m1, o).value, m1);
      GoOn(w, m, m1, k1, 1);
      k, m' := k1 + 1, m1.(blk := if res.b then yes else no, pc := 0);
    } else {
      k, m' := k1 + 1, m1;
      HaltsLater(w, m, k1, 1, res.o, res.trace);
    }
  }

  lemma HaltsLater(w: World, m: MState, k: nat, more: nat, o: Outcome, t: seq<Event>)
    requires HaltsAs(w, m, k, o, t)
    ensures HaltsAs(w, m, k + more, o, t)
  {
    hide ExecInstr;
    if o != Undeclared {
      RunAdds(w.code, w.cx.env, w.args, Live(m), k, more);
      RunDone(w.code, w.cx.env, w.args, Done(o, t), more);
    }
  }

  function AssertHead(g: Gen): (r: Gen)
    requires Ready(g)
    ensures Ready(r)
  {
    BranchTo(NewBlock(NewBlock(NewBlock(g))), |g.blocks|)
  }

  /** Branching on a condition and going on in one of the two blocks. */
  function ChooseTo(g: Gen, c: Operand, yes: nat, no: nat, b: nat): Gen
    requires Ready(g)
  {
    Emit(g, CondBr(c, yes, no)).(cur := b)
  }

  /** The pieces of code an assertion consists of. */
  lemma AssertShape(sigs: Sigs, g: Gen, g': Gen, e: Expr) returns (g2: Gen, o: Operand)
    requires Ready(g) && GenAssert(sigs, g, e) == Ok(g')
    ensures Ready(g2) && GenCondition(sigs, AssertHead(g), e) == Ok((g2, o))
    ensures |g.blocks| + 2 < |g2.blocks|
    ensures g' == BranchTo(Emit(ChooseTo(g2, o, |g.blocks| + 2, |g.blocks| + 1, |g.blocks| + 1), CallAbort), |g.blocks| + 2)
    ensures g2.blocks[|g.blocks| + 1] == [] && g2.blocks[|g.blocks| + 2] == []
  {
    hide GenCondition;
    var r := GenCondition(sigs, AssertHead(g), e).value;
    g2, o := r.0, r.1;
    assert Appends(AssertHead(g), g2);
  }

  lemma AssertWithin(g: Gen, g2: Gen, g3: Gen, o: Operand, code: Blocks)
    requires Ready(g) && Ready(g2) && Appends(AssertHead(g), g2) && Ready(g3)
    requires g3 == ChooseTo(g2, o, |g.blocks| + 2, |g.blocks| + 1, |g.blocks| + 1)
    requires Within(BranchTo(Emit(g3, CallAbort), |g.blocks| + 2), code)
    ensures Within(Emit(g, Br(|g.blocks|)), code)
    ensures Within(Emit(g2, CondBr(o, |g.blocks| + 2, |g.blocks| + 1)), code)
    ensures Within(Emit(g3, CallAbort), code)
  {
    hide Within, Appends;
    var fail := |g.blocks| + 1;
    WithinEmit(Emit(g3, CallAbort), Br(fail + 1), fail + 1, code);
    WithinEmit(g3, CallAbort, fail, code);
    WithinEmit(g2, CondBr(o, fail + 1, fail), fail, code);
    WithinAppends(AssertHead(g), g2, code);
    assert AssertHead(g).blocks[..|g.blocks|] == Emit(g, Br(|g.blocks|)).blocks;
    WithinMore(Emit(g, Br(|g.blocks|)), AssertHead(g), code);
  }

  lemma AssertSim(w: World, g: Gen, g': Gen, e: Expr, fr: Frame, m: MState, fuel: nat) returns (k: nat)
    requires Sound(w.cx.ret, g) && Simulates(w, g, m, fr, m.trace)
    requires GenAssert(w.cx.sigs, g, e) == Ok(g') && Within(g', w.code)
    ensures Matches(w, g', m, ExecAssert(w.cx, fr, e, m.trace), fuel, k)
  {
    hide ExecInstr, Wrap, GenCondition, GenAssert, EvalCond, Within;
    var check, fail, success := |g.blocks|, |g.blocks| + 1, |g.blocks| + 2;
    var g2, o := AssertShape(w.cx.sigs, g, g', e);
    var g3 := ChooseTo(g2, o, success, fail, fail);
    AssertWithin(g, g2, g3, o, w.code);
    JumpSteps(w, g, check, m);
    var m1 := m.(blk := check, pc := 0);
    var k2, m2 := BranchDecides(w, AssertHead(g), g2, e, o, success, fail, fr, m1);
    GoOn(w, m, m1, 1, k2);
    k := 1 + k2;
    var res := EvalCond(w.cx, fr, e, m.trace);
    if res.Truth? && !res.b {
      AbortSteps(w, g3, m2);
      GoOn(w, m, m2, 1 + k2, 1);
      k := 1 + k2 + 1;
    }
  }

  lemma AbortSteps(w: World, g: Gen, m: MState)
    requires Ready(g) && At(g, m) && Within(Emit(g, CallAbort), w.code)
    ensures Go(w, m, 1) == Done(Aborted, m.trace)
  {
    EmitSteps(w, g, CallAbort, m);
  }

  // ----- input and output -----

  lemma PrintSteps(w: World, g: Gen, fmt: Ty, o: Operand, n: int, m: MState)
    requires Ready(g) && At(g, m) && Within(Emit(g, CallPrint(fmt, o)), w.code) && OperandValue(w.args, m, o) == Some(n)
    ensures Go(w, m, 1) == Live(m.(pc := m.pc + 1, trace := m.trace + [EvPrint(fmt, n)]))
  {
    EmitSteps(w, g, CallPrint(fmt, o), m);
  }

  lemma CastRuns(w: World, d: nat, kind: CastKind, a: Operand, to: Ty, x: int, m: MState)
    requires OperandValue(w.args, m, a) == Some(x)
    ensures ExecInstr(w.cx.env, w.args, Cast(d, kind, a, to), m) == SetReg(m, d, ApplyCast(w.cx.env.fu, kind, a.ty, to, x))
  {
  }

  /** The value as it is passed to the printing routine. */
  function Promoted(g: Gen, v: Operand): (Gen, Operand)
    requires Ready(g)
  {
    var d := g.nextReg;
    if v.ty.IsInt() && v.ty.Bits() < 32 then (Define(g, Cast(d, ZExt, v, I32)), Reg(I32, d))
    else if v.ty.F32? then (Define(g, Cast(d, FPCast, v, F64)), Reg(F64, d))
    else (g, v)
  }

  lemma PromotedRuns(w: World, g: Gen, v: Operand, n: int, m: MState) returns (k: nat, m': MState)
    requires Ready(g) && At(g, m) && Within(Promoted(g, v).0, w.code) && (v.ty.IsInt() || v.ty.IsFloat())
    requires OperandValue(w.args, m, v) == Some(n) && InRange(v.ty, n)
    ensures Ready(Promoted(g, v).0) && Ran(Promoted(g, v).0, m, m', g.nextReg) && Go(w, m, k) == Live(m') && m'.trace == m.trace
    ensures OperandValue(w.args, m', Promoted(g, v).1) == Some(Printed(w.cx.env.fu, v.ty, n))
  {
    hide ExecInstr, Wrap, Unsigned, ApplyCast, Within, Promoted, Printed;
    k, m' := 0, m;
    PromotedShape(g, v);
    if v.ty == I1 || v.ty == I8 || v.ty == F32 {
      var kind, to := PromotionOf(v.ty), PromotedType(v.ty);
      var c := ApplyCast(w.cx.env.fu, kind, v.ty, to, n);
      PromotionPrints(w.cx.env.fu, v.ty, n);
      CastRuns(w, g.nextReg, kind, v, to, n, m);
      k := 1;
      m' := DefineComputes(w, g, Cast(g.nextReg, kind, v, to), to, c, m);
    } else {
      PrintedAsIs(w.cx.env.fu, v.ty, n);
    }
  }

  function PromotionOf(ty: Ty): CastKind { if ty.IsInt() then ZExt else FPCast }

  function PromotedType(ty: Ty): Ty { if ty.IsInt() then I32 else F64 }

  lemma PromotedShape(g: Gen, v: Operand)
    requires Ready(g) && (v.ty.IsInt() || v.ty.IsFloat())
    ensures var to := PromotedType(v.ty);
            Promoted(g, v) ==
              if v.ty == I1 || v.ty == I8 || v.ty == F32
              then (Define(g, Cast(g.nextReg, PromotionOf(v.ty), v, to)), Reg(to, g.nextReg)) else (g, v)
  {
    hide Define;
  }

  lemma PromotionPrints(fu: FloatUnit, ty: Ty, n: int)
    requires ty == I1 || ty == I8 || ty == F32
    ensures ApplyCast(fu, PromotionOf(ty), ty, PromotedType(ty), n) == Some(Printed(fu, ty, n))
    ensures InRange(PromotedType(ty), Printed(fu, ty, n))
  {
  }

  lemma PrintedAsIs(fu: FloatUnit, ty: Ty, n: int)
    requires ty == I32 || ty == I64 || ty == F64
    ensures Printed(fu, ty, n) == n
  {
  }

  lemma PrintShape(sigs: Sigs, g: Gen, g': Gen, e: Expr) returns (g1: Gen, v: Operand)
    requires Ready(g) && GenPrint(sigs, g, e) == Ok(g')
    ensures Ready(g1) && GenExpr(sigs, g, e).Ok? && GenExpr(sigs, g, e).value.0 == g1 && GenExpr(sigs, g, e).value.1.op == v
    ensures v.ty.IsInt() || v.ty.IsFloat()
    ensures Ready(Promoted(g1, v).0) && Appends(g1, Promoted(g1, v).0) && Appends(g, g') && Appends(g, g1)
    ensures g' == Emit(Promoted(g1, v).0, CallPrint(v.ty, Promoted(g1, v).1))
  {
    hide GenExpr;
    var r := GenExpr(sigs, g, e).value;
    g1, v := r.0, r.1.op;
  }

  lemma PrintTailSim(w: World, g1: Gen, g': Gen, v: Operand, n: int, fr: Frame, m1: MState, fuel: nat) returns (k: nat)
    requires Sound(w.cx.ret, g1) && Simulates(w, g1, m1, fr, m1.trace) && (v.ty.IsInt() || v.ty.IsFloat())
    requires Ready(Promoted(g1, v).0) && Appends(g1, Promoted(g1, v).0) && Within(g', w.code)
    requires g' == Emit(Promoted(g1, v).0, CallPrint(v.ty, Promoted(g1, v).1))
    requires OperandValue(w.args, m1, v) == Some(n) && InRange(v.ty, n)
    ensures Matches(w, g', m1, Normal(fr, m1.trace + [EvPrint(v.ty, Printed(w.cx.env.fu, v.ty, n))]), fuel, k)
  {
    hide ExecInstr, Wrap, Within, Printed, Promoted;
    var (g2, o) := Promoted(g1, v);
    WithinEmit(g2, CallPrint(v.ty, o), g2.cur, w.code);
    var k2, m2 := PromotedRuns(w, g1, v, n, m1);
    PrintSteps(w, g2, v.ty, o, Printed(w.cx.env.fu, v.ty, n), m2);
    GoOn(w, m1, m2, k2, 1);
    k := k2 + 1;
  }

  lemma PrintMeaning(cx: Ctx, fr: Frame, e: Expr, t: seq<Event>)
    ensures var r := EvalExpr(cx, fr, e, t);
            r.Halt? || r.ty.IsInt() || r.ty.IsFloat() ==>
              ExecPrint(cx, fr, e, t) ==
                if r.Halt? then Stop(r.o, r.trace)
                else Normal(fr, r.trace + [EvPrint(r.ty, Printed(cx.env.fu, r.ty, r.n))])
  {
  }

  lemma PrintSim(w: World, g: Gen, g': Gen, e: Expr, fr: Frame, m: MState, fuel: nat) returns (k: nat)
    requires Sound(w.cx.ret, g) && Simulates(w, g, m, fr, m.trace)
    requires GenPrint(w.cx.sigs, g, e) == Ok(g') && Within(g', w.code)
    ensures Matches(w, g', m, ExecPrint(w.cx, fr, e, m.trace), fuel, k)
  {
    hide ExecInstr, Wrap, EvalExpr, GenExpr, GenPrint, Within, Printed, Promoted, ExecPrint;
    var g1, v := PrintShape(w.cx.sigs, g, g', e);
    var (g2, o) := Promoted(g1, v);
    WithinEmit(g2, CallPrint(v.ty, o), g2.cur, w.code);
    WithinAppends(g1, g2, w.code);
    PrintMeaning(w.cx, fr, e, m.trace);
    var k1, m1 := ExprComputes(w, g, e, fr, m);
    k := k1;
    var r := EvalExpr(w.cx, fr, e, m.trace);
    if r.Value? {
      ExprKeeps(w, g, g1, m, m1, fr);
      var k2 := PrintTailSim(w, g1, g', v, r.n, fr, m1, fuel);
      ThenMatches(w, g', m, m1, ExecPrint(w.cx, fr, e, m.trace), fuel, k1, k2);
      k := k1 + k2;
    }
  }

  lemma ScanSim(w: World, g: Gen, b: Binding<nat>, i: nat, x: string, fr: Frame, m: MState, fuel: nat) returns (k: nat)
    requires Sound(w.cx.ret, g) && Simulates(w, g, m, fr, m.trace)
    requires i < |g.scopes| && x in g.scopes[i] && b == g.scopes[i][x] && !fr[i][x].val.Missing?
    requires Within(Emit(g, CallScan(b.ty, b.val)), w.code)
    ensures var got := w.cx.env.input(m.trace, b.ty);
            var t := m.trace + [EvRead(b.ty, got)];
            Matches(w, Emit(g, CallScan(b.ty, b.val)), m,
                    if got.None? then Normal(fr, t) else Normal(SetVar(fr, i, x, Def(Wrap(b.ty, got.value))), t), fuel, k)
  {
    hide Wrap;
    var got := w.cx.env.input(m.trace, b.ty);
    assert SlotHolds(b, fr[i][x], m.mem);
    EmitSteps(w, g, CallScan(b.ty, b.val), m);
    k := 1;
    if got.Some? {
      WrapInRange(b.ty, got.value);
      SetAgrees(g.scopes, fr, m.mem, i, x, Wrap(b.ty, got.value));
    }
  }

  lemma InputSim(w: World, g: Gen, g': Gen, x: string, fr: Frame, m: MState, fuel: nat) returns (k: nat)
    requires Sound(w.cx.ret, g) && Simulates(w, g, m, fr, m.trace)
    requires GenInput(g, x) == Ok(g') && Within(g', w.code)
    ensures Matches(w, g', m, ExecInput(w.cx, fr, x, m.trace), fuel, k)
  {
    hide ExecInstr, Wrap, Within, Agree, Distinct, Below, Truthiness;
    VariableHolds(g.scopes, fr, m.mem, x);
    var i := Level(g.scopes, x).value;
    var b := g.scopes[i][x];
    k := 0;
    if b.ty == I1 {
      k := ReadBoolSim(w, g, b.val, g', m);
    } else if !fr[i][x].val.Missing? {
      k := ScanSim(w, g, b, i, x, fr, m, fuel);
    }
  }

  /** What was read as an integer cannot be loaded back as a boolean. */
  function ReadBool(g: Gen): (r: Gen)
    requires Ready(g)
    ensures Ready(r)
  {
    Emit(NewSlot(g, I32), CallScan(I1, g.nextSlot))
  }

  lemma ReadBoolSim(w: World, g: Gen, slot: nat, g': Gen, m: MState) returns (k: nat)
    requires Ready(g) && At(g, m) && Within(g', w.code)
    requires var g1 := ReadBool(g);
             var r := Truthiness(Define(g1, Load(g1.nextReg, I1, g.nextSlot)), Val(Reg(I1, g1.nextReg), false));
             r.Ok? && g' == Emit(r.value.0, Store(r.value.1, slot))
    ensures Go(w, m, k) == Done(Undefined, m.trace + [EvRead(I1, w.cx.env.input(m.trace, I1))])
  {
    hide Truthiness, Within, ExecInstr;
    var g1 := ReadBool(g);
    var load := Load(g1.nextReg, I1, g.nextSlot);
    var g2 := Define(g1, load);
    var (g3, o) := Truthiness(g2, Val(Reg(I1, g1.nextReg), false)).value;
    WithinEmit(g3, Store(o, slot), g3.cur, w.code);
    WithinAppends(g2, g3, w.code);
    assert g2.blocks == Emit(g1, load).blocks;
    WithinMore(Emit(g1, load), g2, w.code);
    k := LoadBoolSim(w, g, m);
  }

  lemma LoadBoolSim(w: World, g: Gen, m: MState) returns (k: nat)
    requires Ready(g) && At(g, m) && Within(Emit(ReadBool(g), Load(ReadBool(g).nextReg, I1, g.nextSlot)), w.code)
    ensures Go(w, m, k) == Done(Undefined, m.trace + [EvRead(I1, w.cx.env.input(m.trace, I1))])
  {
    hide Within, Wrap;
    var tmp, g0, g1 := g.nextSlot, NewSlot(g, I32), ReadBool(g);
    WithinEmit(g1, Load(g1.nextReg, I1, tmp), g1.cur, w.code);
    WithinEmit(g0, CallScan(I1, tmp), g0.cur, w.code);
    AllocaSteps(w, g, I32, m);
    var m1 := m.(pc := m.pc + 1, mem := m.mem[tmp := Cell(I32, None)]);
    EmitSteps(w, g0, CallScan(I1, tmp), m1);
    var m2 := AfterScan(m1, I1, tmp, w.cx.env.input(m1.trace, I1)).m;
    EmitSteps(w, g1, Load(g1.nextReg, I1, tmp), m2);
    GoOn(w, m, m1, 1, 1);
    GoOn(w, m, m2, 2, 1);
    k := 3;
  }

  // ----- loops -----

  /** A scope's worth of statements, and back to the scopes before it. */
  lemma ScopeCloses(w: World, g: Gen, g1: Gen, g2: Gen, ds: map<string, Ty>, m: MState, fr: Frame, t: seq<Event>)
    requires Sound(w.cx.ret, g) && Ready(g1) && g1.scopes == g.scopes + [map[]] && g1.result == g.result
    requires g1.nextSlot == g.nextSlot && Grows(g1, g2, ds) && Simulates(w, g2, m, fr, t)
    ensures Agree(g.scopes, Pop(fr), m.mem) && ResultHolds(g, m.mem, w.cx.initial)
    ensures LeaveScope(g2).scopes == g.scopes
  {
    hide ExecInstr, Wrap;
    assert g1.scopes[..|g1.scopes| - 1] == g.scopes;
    ScopeAgrees(g2.scopes, fr, m.mem);
  }

  /** The head of a loop, the end of its body, and its test. */
  datatype LoopParts = LoopParts(head: nat, g1: Gen, g2: Gen, g3: Gen, g4: Gen, c: Operand)

  predicate LoopShape(sigs: Sigs, g: Gen, s: Stmt, g': Gen, p: LoopParts)
    requires Ready(g) && s.Loop?
  {
    && p.head == |g.blocks|
    && p.g1 == EnterScope(BranchTo(NewBlock(g), p.head))
    && Ready(p.g1) && GenStmts(sigs, p.g1, s.body) == Ok(p.g2)
    && Ready(p.g2) && p.g3 == BranchTo(CreateBlock(NewBlock(LeaveScope(p.g2))), |p.g2.blocks|)
    && Ready(p.g3) && GenCondition(sigs, p.g3, s.cond) == Ok((p.g4, p.c))
    && Ready(p.g4)
    && g' == InsertBlock(Emit(p.g4, CondBr(p.c, p.head, |p.g2.blocks| + 1)), |p.g2.blocks| + 1).(cur := |p.g2.blocks| + 1)
  }

  lemma LoopHasShape(sigs: Sigs, g: Gen, s: Stmt, g': Gen) returns (p: LoopParts)
    requires Ready(g) && s.Loop? && GenLoop(sigs, g, s) == Ok(g')
    ensures LoopShape(sigs, g, s, g', p)
  {
    hide GenStmts, GenCondition;
    var head := |g.blocks|;
    var g1 := EnterScope(BranchTo(NewBlock(g), head));
    var g2 := GenStmts(sigs, g1, s.body).value;
    var g3 := BranchTo(CreateBlock(NewBlock(LeaveScope(g2))), |g2.blocks|);
    var r := GenCondition(sigs, g3, s.cond).value;
    p := LoopParts(head, g1, g2, g3, r.0, r.1);
  }

  lemma LoopWithin(sigs: Sigs, g: Gen, s: Stmt, g': Gen, p: LoopParts, code: Blocks)
    requires Ready(g) && g.scopes != [] && s.Loop? && LoopShape(sigs, g, s, g', p) && Within(g', code)
    ensures Within(Emit(g, Br(p.head)), code) && Within(p.g2, code)
    ensures Within(Emit(p.g2, Br(|p.g2.blocks|)), code)
    ensures Within(Emit(p.g4, CondBr(p.c, p.head, |p.g2.blocks| + 1)), code)
    ensures Grows(p.g1, p.g2, DeclsIn(s.body)) && p.g1.blocks[p.head] == []
    ensures p.g4.scopes == g.scopes && g'.blocks[g'.cur] == []
  {
    hide GenStmts, GenCondition, Within, Grows, ScopesGrow, Appends;
    LoopAppends(sigs, g, s, g', p);
    StmtsGrow(sigs, p.g1, s.body);
    LoopEndWithin(p.g3, p.g4, p.c, p.head, |p.g2.blocks| + 1, g', code);
    LoopTestWithin(p.g2, p.g3, code);
    WithinGrows(p.g1, p.g2, DeclsIn(s.body), code);
    LoopHeadWithin(g, p.g1, code);
  }

  lemma LoopEndWithin(g3: Gen, g4: Gen, c: Operand, head: nat, after: nat, g': Gen, code: Blocks)
    requires Ready(g3) && Ready(g4) && Appends(g3, g4) && Within(g', code)
    requires g' == InsertBlock(Emit(g4, CondBr(c, head, after)), after).(cur := after)
    ensures Within(Emit(g4, CondBr(c, head, after)), code) && Within(g3, code)
  {
    hide Within, Appends;
    var e := Emit(g4, CondBr(c, head, after));
    assert g'.blocks[..|e.blocks|] == e.blocks;
    WithinMore(e, g', code);
    WithinEmit(g4, CondBr(c, head, after), g4.cur, code);
    WithinAppends(g3, g4, code);
  }

  lemma LoopTestWithin(g2: Gen, g3: Gen, code: Blocks)
    requires Ready(g2) && g3 == BranchTo(CreateBlock(NewBlock(LeaveScope(g2))), |g2.blocks|) && Within(g3, code)
    ensures Within(Emit(g2, Br(|g2.blocks|)), code) && Within(g2, code)
  {
    hide Within;
    var e := Emit(g2, Br(|g2.blocks|));
    assert g3.blocks[..|e.blocks|] == e.blocks;
    WithinMore(e, g3, code);
    WithinEmit(g2, Br(|g2.blocks|), g2.cur, code);
  }

  lemma LoopHeadWithin(g: Gen, g1: Gen, code: Blocks)
    requires Ready(g) && g1 == EnterScope(BranchTo(NewBlock(g), |g.blocks|)) && Within(g1, code)
    ensures Within(Emit(g, Br(|g.blocks|)), code)
  {
    hide Within;
    var e := Emit(g, Br(|g.blocks|));
    assert g1.blocks[..|e.blocks|] == e.blocks;
    WithinMore(e, g1, code);
  }

  lemma LoopAppends(sigs: Sigs, g: Gen, s: Stmt, g': Gen, p: LoopParts)
    requires Ready(g) && g.scopes != [] && s.Loop? && LoopShape(sigs, g, s, g', p)
    ensures Appends(p.g3, p.g4) && p.g4.scopes == g.scopes && g'.blocks[g'.cur] == []
    ensures p.g1.blocks[p.head] == []
  {
    hide GenStmts, GenCondition;
    StmtsGrow(sigs, p.g1, s.body);
    assert p.g1.scopes[..|p.g1.scopes| - 1] == g.scopes;
  }

  lemma WithinGrows(g: Gen, g': Gen, ds: map<string, Ty>, code: Blocks)
    requires Ready(g) && g.scopes != [] && Grows(g, g', ds) && Within(g', code)
    ensures Within(g, code)
  {
    hide ScopesGrow;
    WithinBefore(g, g', code);
  }

  lemma EnterSound(ret: Ty, g: Gen, g1: Gen)
    requires Sound(ret, g) && Ready(g1) && g1.scopes == g.scopes + [map[]] && g1.nextSlot == g.nextSlot && g1.result == g.result
    ensures Sound(ret, g1)
  {
  }

  lemma LoopMeaning(cx: Ctx, fr: Frame, s: Stmt, t: seq<Event>, fuel: nat)
    requires s.Loop?
    ensures fuel == 0 ==> ExecLoop(cx, fr, s, t, fuel) == NoFuel(t)
    ensures fuel != 0 ==>
              var r := ExecStmts(cx, fr + [map[]], s.body, t, fuel);
              ExecLoop(cx, fr, s, t, fuel) ==
                if !r.Normal? then r
                else
                  var c := EvalCond(cx, Pop(r.fr), s.cond, r.trace);
                  if c.CondHalt? then Stop(c.o, c.trace)
                  else if c.b then ExecLoop(cx, Pop(r.fr), s, c.trace, fuel - 1)
                  else Normal(Pop(r.fr), c.trace)
  {
  }

  /** The machine is about to go round a loop, with the variables of the source. */
  predicate AtHead(w: World, g: Gen, head: nat, fr: Frame, m: MState) {
    m.blk == head && m.pc == 0 && Agree(g.scopes, fr, m.mem) && ResultHolds(g, m.mem, w.cx.initial)
  }

  /** One test of a loop: back to the head, or on to what follows. */
  lemma LoopTests(w: World, g: Gen, g': Gen, s: Stmt, p: LoopParts, fr: Frame, m: MState)
    returns (k: nat, m': MState)
    requires Sound(w.cx.ret, g) && s.Loop? && LoopShape(w.cx.sigs, g, s, g', p) && Within(g', w.code)
    requires Simulates(w, p.g2, m, fr, m.trace)
    ensures 1 < k
    ensures match EvalCond(w.cx, Pop(fr), s.cond, m.trace)
            case CondHalt(o, t) => HaltsAs(w, m, k, o, t)
            case Truth(b, t) =>
              && Go(w, m, k) == Live(m') && m'.trace == t
              && if b then AtHead(w, g, p.head, Pop(fr), m') else Simulates(w, g', m', Pop(fr), t)
  {
    hide ExecInstr, Wrap, GenStmts, GenCondition, EvalCond, Within, Grows, Distinct, Below, Agree, Run, Avoids;
    LoopWithin(w.cx.sigs, g, s, g', p, w.code);
    LoopResult(w.cx.sigs, g, s, g', p);
    var test := |p.g2.blocks|;
    ScopeCloses(w, g, p.g1, p.g2, DeclsIn(s.body), m, fr, m.trace);
    JumpSteps(w, p.g2, test, m);
    var m1 := m.(blk := test, pc := 0);
    var k2, m2 := BranchDecides(w, p.g3, p.g4, s.cond, p.c, p.head, test + 1, Pop(fr), m1);
    GoOn(w, m, m1, 1, k2);
    k, m' := 1 + k2, m2;
  }

  lemma LoopResult(sigs: Sigs, g: Gen, s: Stmt, g': Gen, p: LoopParts)
    requires Ready(g) && g.scopes != [] && s.Loop? && LoopShape(sigs, g, s, g', p)
    ensures Ready(g') && p.g1.result == g.result && p.g2.result == g.result && g'.result == g.result
    ensures p.g1.exit == g.exit && p.g2.exit == g.exit && g'.exit == g.exit
    ensures p.g3.scopes == g.scopes && g'.scopes == g.scopes && p.g3.blocks[p.g3.cur] == []
    ensures p.g1.nextSlot == g.nextSlot && p.g1.scopes == g.scopes + [map[]]
  {
    hide GenStmts, GenCondition;
    StmtsGrow(sigs, p.g1, s.body);
    LoopAppends(sigs, g, s, g', p);
  }

  lemma {:induction false} LoopSim(w: World, g: Gen, g': Gen, s: Stmt, p: LoopParts, fr: Frame, m: MState, fuel: nat)
    returns (k: nat)
    requires Sound(w.cx.ret, g) && s.Loop? && LoopShape(w.cx.sigs, g, s, g', p) && Within(g', w.code)
    requires AtHead(w, g, p.head, fr, m)
    ensures Matches(w, g', m, ExecLoop(w.cx, fr, s, m.trace, fuel), fuel, k)
    decreases fuel, s, 0
  {
    hide ExecInstr, Wrap, LoopShape, EvalCond, Within, Distinct, Below, ExecLoop, ExecStmts, Agree, ResultHolds, AtHead;
    LoopMeaning(w.cx, fr, s, m.trace, fuel);
    k := 0;
    if fuel != 0 {
      k := LoopBodySim(w, g, g', s, p, fr, m, fuel);
      var r := ExecStmts(w.cx, fr + [map[]], s.body, m.trace, fuel);
      if r.Normal? {
        var m1 := Go(w, m, k).m;
        var k2, m2 := LoopTests(w, g, g', s, p, r.fr, m1);
        var c := EvalCond(w.cx, Pop(r.fr), s.cond, r.trace);
        GoOn(w, m, m1, k, k2);
        k := k + k2;
        if c.Truth? && c.b {
          var k3 := LoopSim(w, g, g', s, p, Pop(r.fr), m2, fuel - 1);
          FuelMatches(w, g', m, m2, ExecLoop(w.cx, Pop(r.fr), s, c.trace, fuel - 1), fuel, k, k3);
          k := k + k3;
        }
      }
    }
  }

  /** The body of a loop, once: to the end of its code, or out of the loop. */
  lemma {:induction false} LoopBodySim(w: World, g: Gen, g': Gen, s: Stmt, p: LoopParts, fr: Frame, m: MState, fuel: nat)
    returns (k: nat)
    requires Sound(w.cx.ret, g) && s.Loop? && LoopShape(w.cx.sigs, g, s, g', p) && Within(g', w.code)
    requires AtHead(w, g, p.head, fr, m)
    ensures var r := ExecStmts(w.cx, fr + [map[]], s.body, m.trace, fuel);
            if r.Normal? then Go(w, m, k).Live? && Simulates(w, p.g2, Go(w, m, k).m, r.fr, r.trace) else Matches(w, g', m, r, fuel, k)
    decreases fuel, s.body, 3
  {
    hide ExecInstr, Wrap, GenStmts, GenCondition, Within, Grows, Distinct, Below, ExecStmts, Appends;
    LoopWithin(w.cx.sigs, g, s, g', p, w.code);
    LoopResult(w.cx.sigs, g, s, g', p);
    EnterSound(w.cx.ret, g, p.g1);
    ScopeAgrees(g.scopes, fr, m.mem);
    k := StmtsSim(w, p.g1, p.g2, s.body, fr + [map[]], m, fuel);
    var r := ExecStmts(w.cx, fr + [map[]], s.body, m.trace, fuel);
    if !r.Normal? {
      AbruptMatches(w, p.g2, g', m, r, fuel, k);
    }
  }

  /** Going round once more takes at least one step, which pays for one unit of fuel. */
  lemma FuelMatches(w: World, g: Gen, m: MState, m1: MState, res: Exec, fuel: nat, k1: nat, k2: nat)
    requires 0 < fuel && 0 < k1 && Go(w, m, k1) == Live(m1) && Matches(w, g, m1, res, fuel - 1, k2)
    ensures Matches(w, g, m, res, fuel, k1 + k2)
  {
    hide ExecInstr;
    GoOn(w, m, m1, k1, k2);
  }

  lemma {:induction false} LoopStmtSim(w: World, g: Gen, g': Gen, s: Stmt, fr: Frame, m: MState, fuel: nat) returns (k: nat)
    requires Sound(w.cx.ret, g) && Simulates(w, g, m, fr, m.trace)
    requires s.Loop? && GenLoop(w.cx.sigs, g, s) == Ok(g') && Within(g', w.code)
    ensures Matches(w, g', m, ExecLoop(w.cx, fr, s, m.trace, fuel), fuel, k)
    decreases fuel, s, 1
  {
    hide ExecInstr, Wrap, GenStmts, GenCondition, Within, Grows, Distinct, Below, ExecLoop, GenLoop;
    var p := LoopHasShape(w.cx.sigs, g, s, g');
    LoopWithin(w.cx.sigs, g, s, g', p, w.code);
    JumpSteps(w, g, p.head, m);
    var m1 := m.(blk := p.head, pc := 0);
    k := LoopSim(w, g, g', s, p, fr, m1, fuel);
    ThenMatches(w, g', m, m1, ExecLoop(w.cx, fr, s, m.trace, fuel), fuel, 1, k);
    k := 1 + k;
  }

  // ----- branches -----

  datatype CaseParts = CaseParts(g1: Gen, v: Operand, g2: Gen, g3: Gen)

  predicate CaseShape(sigs: Sigs, g: Gen, c: Case, exit: nat, g': Gen, p: CaseParts)
    requires Ready(g)
  {
    && Ready(p.g1) && GenCondition(sigs, g, c.cond) == Ok((p.g1, p.v))
    && p.g2 == ChooseTo(NewBlock(CreateBlock(p.g1)), p.v, |p.g1.blocks| + 1, |p.g1.blocks|, |p.g1.blocks| + 1)
    && Ready(p.g2) && GenStmts(sigs, p.g2, c.body) == Ok(p.g3)
    && Ready(p.g3) && g' == InsertBlock(Emit(p.g3, Br(exit)), |p.g1.blocks|).(cur := |p.g1.blocks|)
  }

  lemma CaseHasShape(sigs: Sigs, g: Gen, c: Case, exit: nat, g': Gen) returns (p: CaseParts)
    requires Ready(g) && GenCase(sigs, g, c, exit) == Ok(g')
    ensures CaseShape(sigs, g, c, exit, g', p)
  {
    hide GenStmts, GenCondition;
    var r := GenCondition(sigs, g, c.cond).value;
    var g2 := ChooseTo(NewBlock(CreateBlock(r.0)), r.1, |r.0.blocks| + 1, |r.0.blocks|, |r.0.blocks| + 1);
    p := CaseParts(r.0, r.1, g2, GenStmts(sigs, g2, c.body).value);
  }

  lemma CaseFacts(sigs: Sigs, g: Gen, c: Case, exit: nat, g': Gen, p: CaseParts)
    requires Ready(g) && g.scopes != [] && CaseShape(sigs, g, c, exit, g', p)
    ensures Appends(g, p.g1) && Grows(g, p.g2, map[]) && Grows(p.g2, p.g3, DeclsIn(c.body))
    ensures p.g2.scopes == g.scopes && p.g2.blocks[p.g2.cur] == [] && Ready(g') && g'.blocks[g'.cur] == []
    ensures p.g3.scopes == g'.scopes && p.g3.nextSlot == g'.nextSlot
  {
    hide GenStmts, GenCondition;
    AppendsGrows(g, p.g1);
    StmtsGrow(sigs, p.g2, c.body);
  }

  lemma CaseWithin(sigs: Sigs, g: Gen, c: Case, exit: nat, g': Gen, p: CaseParts, code: Blocks)
    requires Ready(g) && g.scopes != [] && CaseShape(sigs, g, c, exit, g', p) && Within(g', code)
    ensures Within(Emit(p.g1, CondBr(p.v, |p.g1.blocks| + 1, |p.g1.blocks|)), code)
    ensures Within(p.g3, code) && Within(Emit(p.g3, Br(exit)), code)
  {
    hide GenStmts, GenCondition, Within, Grows, Appends;
    CaseFacts(sigs, g, c, exit, g', p);
    var e3 := Emit(p.g3, Br(exit));
    assert g'.blocks[..|e3.blocks|] == e3.blocks;
    WithinMore(e3, g', code);
    WithinEmit(p.g3, Br(exit), p.g3.cur, code);
    WithinGrows(p.g2, p.g3, DeclsIn(c.body), code);
    var e1 := Emit(p.g1, CondBr(p.v, |p.g1.blocks| + 1, |p.g1.blocks|));
    assert p.g2.blocks[..|e1.blocks|] == e1.blocks;
    WithinMore(e1, p.g2, code);
  }

  lemma CasesMeaning(cx: Ctx, fr: Frame, cases: seq<Case>, t: seq<Event>, fuel: nat)
    requires cases != []
    ensures var c := EvalCond(cx, fr, cases[0].cond, t);
            ExecCases(cx, fr, cases, t, fuel) ==
              if c.CondHalt? then Taken(Stop(c.o, c.trace))
              else if !c.b then ExecCases(cx, MarkMissing(fr, DeclsIn(cases[0].body)), cases[1..], c.trace, fuel)
              else
                var r := ExecStmts(cx, fr, cases[0].body, c.trace, fuel);
                Taken(if r.Normal? then Normal(MarkMissing(r.fr, DeclsOfCases(cases[1..])), r.trace) else r)
  {
  }

  /** After a taken case the machine is at the block after the branch. */
  predicate Joined(w: World, g: Gen, exit: nat, m: MState, fr: Frame, t: seq<Event>) {
    m.blk == exit && m.pc == 0 && Agree(g.scopes, fr, m.mem) && ResultHolds(g, m.mem, w.cx.initial) && m.trace == t
  }

  predicate MatchesChoice(w: World, g: Gen, exit: nat, m: MState, res: Choice, fuel: nat, k: nat) {
    match res
    case NoneTaken(fr, t) => Go(w, m, k).Live? && Simulates(w, g, Go(w, m, k).m, fr, t)
    case Taken(r) =>
      if r.Normal? then Go(w, m, k).Live? && Joined(w, g, exit, Go(w, m, k).m, r.fr, r.trace)
      else Matches(w, g, m, r, fuel, k)
  }

  lemma ThenMatchesChoice(w: World, g: Gen, exit: nat, m: MState, m1: MState, res: Choice, fuel: nat, k1: nat, k2: nat)
    requires Go(w, m, k1) == Live(m1) && MatchesChoice(w, g, exit, m1, res, fuel, k2)
    ensures MatchesChoice(w, g, exit, m, res, fuel, k1 + k2)
  {
    hide ExecInstr, Simulates, Joined, ResultHolds;
    GoOn(w, m, m1, k1, k2);
  }

  /** One condition: on to the body, or to where the next case begins with the declarations
      of this one passed over. */
  lemma CaseTests(w: World, g: Gen, g': Gen, c: Case, exit: nat, p: CaseParts, fr: Frame, m: MState)
    returns (k: nat, m1: MState)
    requires Sound(w.cx.ret, g) && Simulates(w, g, m, fr, m.trace)
    requires GenCase(w.cx.sigs, g, c, exit) == Ok(g') && CaseShape(w.cx.sigs, g, c, exit, g', p) && Within(g', w.code)
    ensures 0 < k && m.pc + k <= |p.g1.blocks[p.g1.cur]| + 1 && Sound(w.cx.ret, g')
    ensures match EvalCond(w.cx, fr, c.cond, m.trace)
            case CondHalt(o, t) => HaltsAs(w, m, k, o, t)
            case Truth(b, t) =>
              && Go(w, m, k) == Live(m1) && m1.mem == m.mem && m1.trace == t && m1.pc == 0
              && m1.blk == (if b then p.g2.cur else g'.cur)
              && (if b then Agree(g.scopes, fr, m1.mem) && ResultHolds(g, m1.mem, w.cx.initial)
                  else Simulates(w, g', m1, MarkMissing(fr, DeclsIn(c.body)), t))
  {
    hide ExecInstr, Wrap, GenStmts, GenCase, GenCondition, Within, ScopesGrow, Distinct, Below, Appends, EvalCond;
    CaseGrows(w.cx.sigs, g, c, exit);
    CaseWithin(w.cx.sigs, g, c, exit, g', p, w.code);
    CaseFacts(w.cx.sigs, g, c, exit, g', p);
    k, m1 := BranchDecides(w, g, p.g1, c.cond, p.v, p.g2.cur, g'.cur, fr, m);
    GrowsSound(w.cx.ret, g, g', DeclsIn(c.body));
    MissingAgrees(g, g', DeclsIn(c.body), fr, m.mem);
  }

  /** The body of the case whose condition held, up to the block after the branch. */
  lemma {:induction false} CaseBodySim(w: World, g: Gen, g': Gen, c: Case, exit: nat, gn: Gen, ds: map<string, Ty>,
                                       p: CaseParts, fr: Frame, m: MState, fuel: nat)
    returns (k: nat)
    requires Sound(w.cx.ret, g) && CaseShape(w.cx.sigs, g, c, exit, g', p) && Within(g', w.code)
    requires g'.scopes != [] && Grows(g', gn, ds)
    requires m.blk == p.g2.cur && m.pc == 0 && Agree(g.scopes, fr, m.mem) && ResultHolds(g, m.mem, w.cx.initial)
    ensures var r := ExecStmts(w.cx, fr, c.body, m.trace, fuel);
            MatchesChoice(w, gn, exit, m, Taken(if r.Normal? then Normal(MarkMissing(r.fr, ds), r.trace) else r), fuel, k)
    decreases fuel, c, 0
  {
    hide ExecInstr, Wrap, GenStmts, GenCondition, Within, ScopesGrow, Distinct, Below, ExecStmts, Appends;
    CaseFacts(w.cx.sigs, g, c, exit, g', p);
    CaseWithin(w.cx.sigs, g, c, exit, g', p, w.code);
    GrowsSound(w.cx.ret, g, p.g2, map[]);
    k := StmtsSim(w, p.g2, p.g3, c.body, fr, m, fuel);
    var r := ExecStmts(w.cx, fr, c.body, m.trace, fuel);
    if r.Normal? {
      var m1 := Go(w, m, k).m;
      JumpSteps(w, p.g3, exit, m1);
      MissingAgrees(g', gn, ds, r.fr, m1.mem);
      GoOn(w, m, m1, k, 1);
      k := k + 1;
    } else {
      AbruptMatches(w, p.g3, gn, m, r, fuel, k);
    }
  }

  lemma {:induction false} CasesSim(w: World, g: Gen, g': Gen, cases: seq<Case>, exit: nat, fr: Frame, m: MState, fuel: nat)
    returns (k: nat)
    requires Sound(w.cx.ret, g) && Simulates(w, g, m, fr, m.trace)
    requires GenCases(w.cx.sigs, g, cases, exit) == Ok(g') && Within(g', w.code)
    ensures MatchesChoice(w, g', exit, m, ExecCases(w.cx, fr, cases, m.trace, fuel), fuel, k)
    decreases fuel, cases
  {
    k := 0;
    if cases != [] {
      var g1 := GenCase(w.cx.sigs, g, cases[0], exit).value;
      k := CasesStepSim(w, g, g1, g', cases, exit, fr, m, fuel);
    }
  }

  lemma {:induction false} CasesStepSim(w: World, g: Gen, g1: Gen, g': Gen, cases: seq<Case>, exit: nat, fr: Frame, m: MState,
                                        fuel: nat)
    returns (k: nat)
    requires Sound(w.cx.ret, g) && Simulates(w, g, m, fr, m.trace) && cases != []
    requires GenCase(w.cx.sigs, g, cases[0], exit) == Ok(g1) && Ready(g1)
    requires GenCases(w.cx.sigs, g1, cases[1..], exit) == Ok(g') && Within(g', w.code)
    ensures MatchesChoice(w, g', exit, m, ExecCases(w.cx, fr, cases, m.trace, fuel), fuel, k)
    decreases fuel, cases, 0
  {
    hide ExecInstr, Wrap, GenStmts, GenCase, GenCases, GenCondition, Within, ScopesGrow, Distinct, Below, ExecStmts, Appends,
         ExecCases, EvalCond, MatchesChoice;
    var c, rest := cases[0], DeclsOfCases(cases[1..]);
    var p := CaseHasShape(w.cx.sigs, g, c, exit, g1);
    CaseGrows(w.cx.sigs, g, c, exit);
    CasesGrow(w.cx.sigs, g1, cases[1..], exit);
    WithinGrows(g1, g', rest, w.code);
    CasesMeaning(w.cx, fr, cases, m.trace, fuel);
    var k1, m1 := CaseTests(w, g, g1, c, exit, p, fr, m);
    var res := EvalCond(w.cx, fr, c.cond, m.trace);
    var all := ExecCases(w.cx, fr, cases, m.trace, fuel);
    if res.CondHalt? {
      k := k1;
      ChoiceHalts(w, g', exit, m, res.o, res.trace, fuel, k);
    } else if res.b {
      var k2 := CaseBodySim(w, g, g1, c, exit, g', rest, p, fr, m1, fuel);
      ThenMatchesChoice(w, g', exit, m, m1, all, fuel, k1, k2);
      k := k1 + k2;
    } else {
      var k2 := CasesSim(w, g1, g', cases[1..], exit, MarkMissing(fr, DeclsIn(c.body)), m1, fuel);
      ThenMatchesChoice(w, g', exit, m, m1, all, fuel, k1, k2);
      k := k1 + k2;
    }
  }

  lemma ChoiceHalts(w: World, g: Gen, exit: nat, m: MState, o: Outcome, t: seq<Event>, fuel: nat, k: nat)
    requires HaltsAs(w, m, k, o, t)
    ensures MatchesChoice(w, g, exit, m, Taken(Stop(o, t)), fuel, k)
  {
  }

  lemma ElseMeaning(cx: Ctx, fr: Frame, body: seq<Stmt>, t: seq<Event>, fuel: nat)
    ensures var r := ExecStmts(cx, fr + [map[]], body, t, fuel);
            ExecElse(cx, fr, Else(body), t, fuel) == if r.Normal? then Normal(Pop(r.fr), r.trace) else r
  {
  }

  lemma {:induction false} ElseSim(w: World, g: Gen, g': Gen, els: Else, fr: Frame, m: MState, fuel: nat) returns (k: nat)
    requires Sound(w.cx.ret, g) && Simulates(w, g, m, fr, m.trace)
    requires GenElse(w.cx.sigs, g, els) == Ok(g') && Within(g', w.code)
    ensures Matches(w, g', m, ExecElse(w.cx, fr, els, m.trace, fuel), fuel, k)
    decreases fuel, els, 0
  {
    k := 0;
    if els.Else? {
      var g1 := BranchTo(NewBlock(EnterScope(g)), |g.blocks|);
      var g2 := GenStmts(w.cx.sigs, g1, els.body).value;
      k := ElseBodySim(w, g, g1, g2, els.body, fr, m, fuel);
    }
  }

  lemma {:induction false} ElseBodySim(w: World, g: Gen, g1: Gen, g2: Gen, body: seq<Stmt>, fr: Frame, m: MState, fuel: nat)
    returns (k: nat)
    requires Sound(w.cx.ret, g) && Simulates(w, g, m, fr, m.trace)
    requires g1 == BranchTo(NewBlock(EnterScope(g)), |g.blocks|) && Ready(g1)
    requires GenStmts(w.cx.sigs, g1, body) == Ok(g2) && Within(LeaveScope(g2), w.code)
    ensures Matches(w, LeaveScope(g2), m, ExecElse(w.cx, fr, Else(body), m.trace, fuel), fuel, k)
    decreases fuel, body, 3
  {
    hide ExecInstr, Wrap, GenStmts, Within, ScopesGrow, Distinct, Below, ExecStmts, ExecElse;
    StmtsGrow(w.cx.sigs, g1, body);
    EnterSound(w.cx.ret, g, g1);
    WithinMore(g2, LeaveScope(g2), w.code);
    WithinGrows(g1, g2, DeclsIn(body), w.code);
    var e := Emit(g, Br(|g.blocks|));
    assert g1.blocks[..|e.blocks|] == e.blocks;
    WithinMore(e, g1, w.code);
    JumpSteps(w, g, |g.blocks|, m);
    var m1 := m.(blk := |g.blocks|, pc := 0);
    ScopeAgrees(g.scopes, fr, m.mem);
    var k1 := StmtsSim(w, g1, g2, body, fr + [map[]], m1, fuel);
    ElseMeaning(w.cx, fr, body, m.trace, fuel);
    var r := ExecStmts(w.cx, fr + [map[]], body, m.trace, fuel);
    if r.Normal? {
      ScopeCloses(w, g, g1, g2, DeclsIn(body), Go(w, m1, k1).m, r.fr, r.trace);
    } else {
      AbruptMatches(w, g2, LeaveScope(g2), m1, r, fuel, k1);
    }
    ThenMatches(w, LeaveScope(g2), m, m1, ExecElse(w.cx, fr, Else(body), m.trace, fuel), fuel, 1, k1);
    k := 1 + k1;
  }

  datatype BranchParts = BranchParts(entry: nat, exit: nat, g1: Gen, g2: Gen, g3: Gen)

  predicate BranchShape(sigs: Sigs, g: Gen, s: Stmt, g': Gen, p: BranchParts)
    requires Ready(g) && s.Branch?
  {
    && p.entry == |g.blocks| && p.exit == |g.blocks| + 1
    && p.g1 == BranchHead(g)
    && Ready(p.g1) && GenCases(sigs, p.g1, s.cases, p.exit) == Ok(p.g2)
    && Ready(p.g2) && GenElse(sigs, p.g2, s.els) == Ok(p.g3)
    && Ready(p.g3) && g' == InsertBlock(Emit(p.g3, Br(p.exit)), p.exit).(cur := p.exit)
  }

  lemma BranchHasShape(sigs: Sigs, g: Gen, s: Stmt, g': Gen) returns (p: BranchParts)
    requires Ready(g) && s.Branch? && GenBranch(sigs, g, s) == Ok(g')
    ensures BranchShape(sigs, g, s, g', p)
  {
    hide GenCases, GenElse;
    var g2 := GenCases(sigs, BranchHead(g), s.cases, |g.blocks| + 1).value;
    p := BranchParts(|g.blocks|, |g.blocks| + 1, BranchHead(g), g2, GenElse(sigs, g2, s.els).value);
  }

  lemma BranchFacts(sigs: Sigs, g: Gen, s: Stmt, g': Gen, p: BranchParts)
    requires Ready(g) && g.scopes != [] && s.Branch? && BranchShape(sigs, g, s, g', p)
    ensures Grows(g, p.g1, map[]) && Grows(p.g1, p.g2, DeclsOfCases(s.cases)) && Grows(p.g2, p.g3, map[])
    ensures p.g1.scopes == g.scopes && p.g3.scopes == p.g2.scopes && p.g2.scopes != [] && p.g1.blocks[p.g1.cur] == []
    ensures Ready(g') && g'.blocks[p.exit] == [] && g'.scopes == p.g2.scopes
    ensures g'.exit == p.g3.exit && p.g3.exit == p.g2.exit && p.g2.exit == g.exit
    ensures g'.result == p.g3.result && p.g3.result == p.g2.result && p.g2.result == g.result
  {
    hide GenCases, GenElse, ScopesGrow;
    BranchOpens(g);
    CasesGrow(sigs, p.g1, s.cases, p.exit);
    ElseGrows(sigs, p.g2, s.els);
    assert p.g1.blocks[p.exit] == [] && p.g1.cur != p.exit;
    assert p.g2.blocks[p.exit] == [] && p.g2.cur != p.exit;
  }

  lemma BranchWithin(sigs: Sigs, g: Gen, s: Stmt, g': Gen, p: BranchParts, code: Blocks)
    requires Ready(g) && g.scopes != [] && s.Branch? && BranchShape(sigs, g, s, g', p) && Within(g', code)
    ensures Within(p.g1, code) && Within(p.g2, code) && Within(p.g3, code) && Within(Emit(p.g3, Br(p.exit)), code)
  {
    hide GenCases, GenElse, Grows, Within, BranchHead;
    BranchFacts(sigs, g, s, g', p);
    var e3 := Emit(p.g3, Br(p.exit));
    assert g'.blocks[..|e3.blocks|] == e3.blocks;
    WithinMore(e3, g', code);
    WithinEmit(p.g3, Br(p.exit), p.g3.cur, code);
    WithinGrows(p.g2, p.g3, map[], code);
    WithinGrows(p.g1, p.g2, DeclsOfCases(s.cases), code);
  }

  lemma HeadWithin(g: Gen, code: Blocks)
    requires Ready(g) && Within(BranchHead(g), code)
    ensures Within(Emit(g, Br(|g.blocks|)), code)
    ensures Within(Emit(NewBlock(BranchTo(CreateBlock(NewBlock(g)), |g.blocks|)), Br(|g.blocks| + 2)), code)
  {
    hide Within;
    var g0 := NewBlock(BranchTo(CreateBlock(NewBlock(g)), |g.blocks|));
    WithinEmit(g0, Br(|g.blocks| + 2), |g.blocks| + 2, code);
    var e := Emit(g, Br(|g.blocks|));
    assert g0.blocks[..|e.blocks|] == e.blocks;
    WithinMore(e, g0, code);
  }

  lemma BranchMeaning(cx: Ctx, fr: Frame, s: Stmt, t: seq<Event>, fuel: nat)
    requires s.Branch?
    ensures var c := ExecCases(cx, fr, s.cases, t, fuel);
            ExecStmt(cx, fr, s, t, fuel) == if c.Taken? then c.r else ExecElse(cx, c.fr, s.els, c.trace, fuel)
  {
  }

  /** The two jumps that lead to the first condition. */
  lemma BranchEnters(w: World, g: Gen, s: Stmt, g': Gen, p: BranchParts, m: MState)
    requires Ready(g) && At(g, m) && g.scopes != [] && s.Branch? && BranchShape(w.cx.sigs, g, s, g', p) && Within(g', w.code)
    ensures Go(w, m, 2) == Live(m.(blk := p.g1.cur, pc := 0))
  {
    hide ExecInstr, GenCases, GenElse, Within;
    BranchWithin(w.cx.sigs, g, s, g', p, w.code);
    HeadWithin(g, w.code);
    JumpSteps(w, g, p.entry, m);
    var m1 := m.(blk := p.entry, pc := 0);
    JumpSteps(w, NewBlock(BranchTo(CreateBlock(NewBlock(g)), p.entry)), p.entry + 2, m1);
    GoOn(w, m, m1, 1, 1);
  }

  lemma {:induction false} BranchSim(w: World, g: Gen, g': Gen, s: Stmt, fr: Frame, m: MState, fuel: nat) returns (k: nat)
    requires Sound(w.cx.ret, g) && Simulates(w, g, m, fr, m.trace)
    requires s.Branch? && GenBranch(w.cx.sigs, g, s) == Ok(g') && Within(g', w.code)
    ensures Matches(w, g', m, ExecStmt(w.cx, fr, s, m.trace, fuel), fuel, k)
    decreases fuel, s, 0
  {
    hide ExecInstr, Wrap, GenBranch, GenCases, GenElse, Within, ScopesGrow, Distinct, Below, ExecCases, ExecElse, ExecStmt;
    var p := BranchHasShape(w.cx.sigs, g, s, g');
    BranchFacts(w.cx.sigs, g, s, g', p);
    BranchWithin(w.cx.sigs, g, s, g', p, w.code);
    BranchEnters(w, g, s, g', p, m);
    BranchMeaning(w.cx, fr, s, m.trace, fuel);
    GrowsSound(w.cx.ret, g, p.g1, map[]);
    var m1 := m.(blk := p.g1.cur, pc := 0);
    var k1 := CasesSim(w, p.g1, p.g2, s.cases, p.exit, fr, m1, fuel);
    var c := ExecCases(w.cx, fr, s.cases, m.trace, fuel);
    var k2 := k1;
    if c.NoneTaken? {
      var m2 := Go(w, m1, k1).m;
      GrowsSound(w.cx.ret, p.g1, p.g2, DeclsOfCases(s.cases));
      var k3 := BranchElseSim(w, g, g', s, p, c.fr, m2, fuel);
      ThenMatches(w, g', m1, m2, ExecElse(w.cx, c.fr, s.els, c.trace, fuel), fuel, k1, k3);
      k2 := k1 + k3;
    } else if !c.r.Normal? {
      AbruptMatches(w, p.g2, g', m1, c.r, fuel, k1);
    }
    ThenMatches(w, g', m, m1, ExecStmt(w.cx, fr, s, m.trace, fuel), fuel, 2, k2);
    k := 2 + k2;
  }

  /** No condition held: the else body, if any, then on to the block after the branch. */
  lemma {:induction false} BranchElseSim(w: World, g: Gen, g': Gen, s: Stmt, p: BranchParts, fr: Frame, m: MState, fuel: nat)
    returns (k: nat)
    requires Sound(w.cx.ret, g) && s.Branch? && BranchShape(w.cx.sigs, g, s, g', p) && Within(g', w.code)
    requires Sound(w.cx.ret, p.g2) && Simulates(w, p.g2, m, fr, m.trace)
    ensures Matches(w, g', m, ExecElse(w.cx, fr, s.els, m.trace, fuel), fuel, k)
    decreases fuel, s.els, 1
  {
    hide ExecInstr, Wrap, GenBranch, GenCases, GenElse, Within, Grows, Distinct, Below, ExecElse;
    BranchFacts(w.cx.sigs, g, s, g', p);
    BranchWithin(w.cx.sigs, g, s, g', p, w.code);
    k := ElseSim(w, p.g2, p.g3, s.els, fr, m, fuel);
    var r := ExecElse(w.cx, fr, s.els, m.trace, fuel);
    if r.Normal? {
      var m1 := Go(w, m, k).m;
      JumpSteps(w, p.g3, p.exit, m1);
      GoOn(w, m, m1, k, 1);
      k := k + 1;
    } else {
      AbruptMatches(w, p.g3, g', m, r, fuel, k);
    }
  }

  // ----- any statement -----

  lemma {:induction false} StmtSim(w: World, g: Gen, g': Gen, s: Stmt, fr: Frame, m: MState, fuel: nat) returns (k: nat)
    requires Sound(w.cx.ret, g) && Simulates(w, g, m, fr, m.trace)
    requires GenStmt(w.cx.sigs, g, s) == Ok(g') && Within(g', w.code)
    ensures Matches(w, g', m, ExecStmt(w.cx, fr, s, m.trace, fuel), fuel, k)
    decreases fuel, s, 2
  {
    hide ExecInstr, Wrap, Simulates, Sound, Within, Matches;
    match s
    case Assert(e) => k := AssertSim(w, g, g', e, fr, m, fuel);
    case Input(x) => k := InputSim(w, g, g', x, fr, m, fuel);
    case Abort => k := AbortSim(w, g, fr, m, fuel);
    case Vardecl(x, t, init) => k := VardeclSim(w, g, g', x, IRType(t), init, fr, m, fuel);
    case Return(v) => k := ReturnSim(w, g, g', v, fr, m, fuel);
    case Print(e) => k := PrintSim(w, g, g', e, fr, m, fuel);
    case Assign(x, e) => k := AssignSim(w, g, g', x, e, fr, m, fuel);
    case ExprStmt(e) => k := ExprStmtSim(w, g, g', e, fr, m, fuel);
    case Loop(_, _) => k := LoopStmtSim(w, g, g', s, fr, m, fuel);
    case Branch(_, _, _) => k := BranchSim(w, g, g', s, fr, m, fuel);
  }

  lemma StmtsMeaning(cx: Ctx, fr: Frame, body: seq<Stmt>, t: seq<Event>, fuel: nat)
    requires body != []
    ensures var r := ExecStmt(cx, fr, body[0], t, fuel);
            ExecStmts(cx, fr, body, t, fuel) == if r.Normal? then ExecStmts(cx, r.fr, body[1..], r.trace, fuel) else r
  {
  }

  lemma {:induction false} StmtsSim(w: World, g: Gen, g': Gen, body: seq<Stmt>, fr: Frame, m: MState, fuel: nat)
    returns (k: nat)
    requires Sound(w.cx.ret, g) && Simulates(w, g, m, fr, m.trace)
    requires GenStmts(w.cx.sigs, g, body) == Ok(g') && Within(g', w.code)
    ensures Matches(w, g', m, ExecStmts(w.cx, fr, body, m.trace, fuel), fuel, k)
    decreases fuel, body, 2
  {
    k := 0;
    if body != [] {
      k := StmtsStepSim(w, g, GenStmt(w.cx.sigs, g, body[0]).value, g', body, fr, m, fuel);
    }
  }

  lemma {:induction false} StmtsStepSim(w: World, g: Gen, g1: Gen, g': Gen, body: seq<Stmt>, fr: Frame, m: MState, fuel: nat)
    returns (k: nat)
    requires Sound(w.cx.ret, g) && Simulates(w, g, m, fr, m.trace) && body != []
    requires GenStmt(w.cx.sigs, g, body[0]) == Ok(g1) && Ready(g1)
    requires GenStmts(w.cx.sigs, g1, body[1..]) == Ok(g') && Within(g', w.code)
    ensures Matches(w, g', m, ExecStmts(w.cx, fr, body, m.trace, fuel), fuel, k)
    decreases fuel, body, 1
  {
    hide ExecInstr, Wrap, GenStmt, GenStmts, Within, ScopesGrow, Distinct, Below, ExecStmt, ExecStmts;
    StmtGrows(w.cx.sigs, g, body[0]);
    StmtsGrow(w.cx.sigs, g1, body[1..]);
    GrowsSound(w.cx.ret, g, g1, Decls(body[0]));
    WithinGrows(g1, g', DeclsIn(body[1..]), w.code);
    StmtsMeaning(w.cx, fr, body, m.trace, fuel);
    k := StmtSim(w, g, g1, body[0], fr, m, fuel);
    var r := ExecStmt(w.cx, fr, body[0], m.trace, fuel);
    if r.Normal? {
      var m1 := Go(w, m, k).m;
      var k2 := StmtsSim(w, g1, g', body[1..], r.fr, m1, fuel);
      ThenMatches(w, g', m, m1, ExecStmts(w.cx, fr, body, m.trace, fuel), fuel, k, k2);
      k := k + k2;
    } else {
      AbruptMatches(w, g1, g', m, r, fuel, k);
    }
  }
}
