/** The shape of the generated control-flow graph: every block is inserted once and ends in
    its only terminator, except the blocks generated after a return, which nothing jumps to. */
module WellFormed {
  import opened Ast
  import opened IR
  import opened Typing
  import opened Codegen
  import Registers

  // ----- blocks -----

  predicate NoTerminator(b: seq<Instr>) { forall i | 0 <= i < |b| :: !b[i].IsTerminator() }

  /** Ends in a jump or a return, and in no other place. */
  predicate Terminated(b: seq<Instr>) {
    b != [] && b[|b| - 1].IsTerminator() && !b[|b| - 1].Unreachable? && NoTerminator(b[..|b| - 1])
  }

  /** A block made after a return begins with `unreachable`; what follows is dead code. */
  predicate Dead(b: seq<Instr>) { b != [] && b[0].Unreachable? }

  predicate Open(b: seq<Instr>) { Dead(b) || NoTerminator(b) }

  predicate Closed(b: seq<Instr>) { Dead(b) || Terminated(b) }

  // ----- states -----

  /** What was generated from `g` to `g'`.  Blocks in `pending` are still to be filled, blocks
      in `missing` still to be inserted; jumps lead to new live blocks or to blocks in `ext`. */
  ghost predicate Built(g: Gen, g': Gen, ext: set<nat>, pending: set<nat>, missing: set<nat>)
    requires Ready(g)
  {
    && Ready(g') && |g.blocks| <= |g'.blocks|
    && (forall b | 0 <= b < |g.blocks| && b != g.cur :: g'.blocks[b] == g.blocks[b])
    && g.blocks[g.cur] <= g'.blocks[g.cur]
    && (g'.cur == g.cur || |g.blocks| <= g'.cur)
    && g'.exit == g.exit
    && (Dead(g'.blocks[g.cur]) ==> Dead(g.blocks[g.cur]))
    && BuiltBlocks(g, g', pending) && BuiltLayout(g, g', missing) && BuiltJumps(g, g', ext)
  }

  predicate BuiltBlocks(g: Gen, g': Gen, pending: set<nat>)
    requires Ready(g) && Ready(g') && |g.blocks| <= |g'.blocks|
  {
    && Open(g'.blocks[g'.cur])
    && (g'.cur != g.cur ==> Closed(g'.blocks[g.cur]))
    && (forall b | |g.blocks| <= b < |g'.blocks| && b != g'.cur && b !in pending :: Closed(g'.blocks[b]))
    && (forall b | b in pending :: |g.blocks| <= b < |g'.blocks| && b != g'.cur && g'.blocks[b] == [])
  }

  predicate BuiltLayout(g: Gen, g': Gen, missing: set<nat>) {
    && g.layout <= g'.layout
    && (forall i | |g.layout| <= i < |g'.layout| :: |g.blocks| <= g'.layout[i] < |g'.blocks|)
    && (forall i, j | |g.layout| <= i < j < |g'.layout| :: g'.layout[i] != g'.layout[j])
    && (forall b | |g.blocks| <= b < |g'.blocks| && b !in missing :: b in g'.layout[|g.layout|..])
    && (forall b | b in missing :: |g.blocks| <= b < |g'.blocks| && b !in g'.layout[|g.layout|..])
  }

  /** A target is outside, or a new block that is not dead. */
  predicate Lands(g: Gen, g': Gen, ext: set<nat>, t: nat) {
    t in ext || (|g.blocks| <= t < |g'.blocks| && !Dead(g'.blocks[t]))
  }

  predicate Jumps(g: Gen, g': Gen, ext: set<nat>, i: Instr) {
    !i.Ret? && !i.RetVoid? && forall t | t in i.Targets() :: Lands(g, g', ext, t)
  }

  /** The instruction at `b`, `i` was added since `g`. */
  predicate Added(g: Gen, g': Gen, b: nat, i: nat) {
    b < |g'.blocks| && (b < |g.blocks| ==> |g.blocks[b]| <= i) && i < |g'.blocks[b]|
  }

  ghost predicate BuiltJumps(g: Gen, g': Gen, ext: set<nat>) {
    forall b: nat, i: nat | Added(g, g', b, i) :: Jumps(g, g', ext, g'.blocks[b][i])
  }

  // ----- straight-line code -----

  /** Only instructions that fall through were added, all to the current block. */
  predicate Straight(g: Gen, g': Gen)
    requires Ready(g)
  {
    && g'.cur == g.cur && g'.layout == g.layout && g'.exit == g.exit && |g'.blocks| == |g.blocks|
    && g'.blocks == g.blocks[g.cur := g'.blocks[g.cur]]
    && g.blocks[g.cur] <= g'.blocks[g.cur]
    && forall k | |g.blocks[g.cur]| <= k < |g'.blocks[g.cur]| :: !g'.blocks[g.cur][k].IsTerminator()
  }

  lemma StraightTrans(g: Gen, g1: Gen, g2: Gen)
    requires Ready(g) && Straight(g, g1) && Straight(g1, g2)
    ensures Straight(g, g2)
  {
  }

  lemma StraightOpen(b: seq<Instr>, b': seq<Instr>)
    requires Open(b) && b <= b' && forall k | |b| <= k < |b'| :: !b'[k].IsTerminator()
    ensures Open(b') && (Dead(b') ==> Dead(b))
  {
    if !Dead(b) {
      assert forall i | 0 <= i < |b| :: b'[i] == b[i];
    }
  }

  lemma NothingBuilt(g: Gen, ext: set<nat>)
    requires Ready(g) && Open(g.blocks[g.cur])
    ensures Built(g, g, ext, {}, {})
  {
  }

  /** Scopes, slots and registers do not matter here. */
  lemma SameBuilt(g0: Gen, g: Gen, g': Gen, ext: set<nat>, pending: set<nat>, missing: set<nat>)
    requires Ready(g0) && Built(g0, g, ext, pending, missing)
    requires g'.blocks == g.blocks && g'.layout == g.layout && g'.cur == g.cur && g'.exit == g.exit
    ensures Built(g0, g', ext, pending, missing)
  {
  }

  lemma StraightBuilt(g0: Gen, g: Gen, g': Gen, ext: set<nat>, pending: set<nat>, missing: set<nat>)
    requires Ready(g0) && Built(g0, g, ext, pending, missing) && Straight(g, g')
    ensures Built(g0, g', ext, pending, missing)
  {
    StraightOpen(g.blocks[g.cur], g'.blocks[g.cur]);
    forall b: nat, i: nat | Added(g0, g', b, i)
      ensures Jumps(g0, g', ext, g'.blocks[b][i])
    {
      if b != g.cur || i < |g.blocks[b]| {
        assert Added(g0, g, b, i) && g'.blocks[b][i] == g.blocks[b][i];
      }
    }
  }

  // ----- new blocks and jumps -----

  lemma CreateBuilt(g0: Gen, g: Gen, ext: set<nat>, pending: set<nat>, missing: set<nat>)
    requires Ready(g0) && Built(g0, g, ext, pending, missing)
    ensures Built(g0, CreateBlock(g), ext, pending + {|g.blocks|}, missing + {|g.blocks|})
  {
    hide BuiltJumps;
    CreateJumps(g0, g, ext, pending, missing);
  }

  lemma CreateJumps(g0: Gen, g: Gen, ext: set<nat>, pending: set<nat>, missing: set<nat>)
    requires Ready(g0) && Built(g0, g, ext, pending, missing)
    ensures BuiltJumps(g0, CreateBlock(g), ext)
  {
    hide BuiltBlocks, BuiltLayout;
    var g' := CreateBlock(g);
    forall b: nat, i: nat | Added(g0, g', b, i)
      ensures Jumps(g0, g', ext, g'.blocks[b][i])
    {
      assert Added(g0, g, b, i);
    }
  }

  lemma InsertBuilt(g0: Gen, g: Gen, b: nat, ext: set<nat>, pending: set<nat>, missing: set<nat>)
    requires Ready(g0) && Built(g0, g, ext, pending, missing) && b in missing
    ensures Built(g0, InsertBlock(g, b), ext, pending, missing - {b})
  {
    var g' := InsertBlock(g, b);
    assert g'.layout[|g0.layout|..] == g.layout[|g0.layout|..] + [b];
    forall i, j | |g0.layout| <= i < j < |g'.layout|
      ensures g'.layout[i] != g'.layout[j]
    {
      assert g.layout[i] == g.layout[|g0.layout|..][i - |g0.layout|];
    }
    forall k: nat, i: nat | Added(g0, g', k, i)
      ensures Jumps(g0, g', ext, g'.blocks[k][i])
    {
      assert Added(g0, g, k, i);
    }
  }

  lemma NewBuilt(g0: Gen, g: Gen, ext: set<nat>, pending: set<nat>, missing: set<nat>)
    requires Ready(g0) && Built(g0, g, ext, pending, missing)
    ensures Built(g0, NewBlock(g), ext, pending + {|g.blocks|}, missing)
  {
    hide Built;
    CreateBuilt(g0, g, ext, pending, missing);
    InsertBuilt(g0, CreateBlock(g), |g.blocks|, ext, pending + {|g.blocks|}, missing + {|g.blocks|});
    MissingBelow(g0, g, ext, pending, missing);
    assert missing + {|g.blocks|} - {|g.blocks|} == missing;
  }

  lemma MissingBelow(g0: Gen, g: Gen, ext: set<nat>, pending: set<nat>, missing: set<nat>)
    requires Ready(g0) && Built(g0, g, ext, pending, missing)
    ensures |g.blocks| !in missing && |g.blocks| !in pending
  {
  }

  /** Ending the current block with a jump and going on in a block that was waiting. */
  lemma MoveBuilt(g0: Gen, g: Gen, i: Instr, c: nat, ext: set<nat>, pending: set<nat>, missing: set<nat>)
    requires Ready(g0) && Built(g0, g, ext, pending, missing) && c in pending
    requires (i.Br? || i.CondBr?) && forall t | t in i.Targets() :: Lands(g0, g, ext, t)
    ensures Built(g0, Emit(g, i).(cur := c), ext, pending - {c}, missing)
  {
    var g' := Emit(g, i).(cur := c);
    var b0 := g.blocks[g.cur];
    MoveCloses(b0, i);
    forall b: nat, k: nat | Added(g0, g', b, k)
      ensures Jumps(g0, g', ext, g'.blocks[b][k])
    {
      if b == g.cur && k == |b0| {
        LandsKept(g0, g, g', ext, i);
      } else {
        assert Added(g0, g, b, k) && g'.blocks[b][k] == g.blocks[b][k];
        LandsKept(g0, g, g', ext, g.blocks[b][k]);
      }
    }
  }

  lemma MoveCloses(b: seq<Instr>, i: Instr)
    requires Open(b) && (i.Br? || i.CondBr?)
    ensures Closed(b + [i]) && (Dead(b + [i]) <==> Dead(b))
  {
    assert (b + [i])[..|b|] == b;
  }

  lemma LandsKept(g0: Gen, g: Gen, g': Gen, ext: set<nat>, i: Instr)
    requires forall t | t in i.Targets() :: Lands(g0, g, ext, t)
    requires |g.blocks| <= |g'.blocks| && forall b | 0 <= b < |g.blocks| :: Dead(g'.blocks[b]) ==> Dead(g.blocks[b])
    ensures forall t | t in i.Targets() :: Lands(g0, g', ext, t)
  {
  }

  /** A complete piece of generation appended to what was built so far. */
  lemma ThenBuilt(g0: Gen, g: Gen, g': Gen, ext: set<nat>, pending: set<nat>, missing: set<nat>, ext1: set<nat>)
    requires Ready(g0) && Built(g0, g, ext, pending, missing) && Built(g, g', ext1, {}, {})
    requires forall t | t in ext1 :: t in ext || t in pending
    ensures Built(g0, g', ext, pending, missing)
  {
    hide BuiltJumps, BuiltLayout;
    ThenJumps(g0, g, g', ext, pending, missing, ext1);
    ThenLayout(g0, g, g', missing);
    forall b | |g0.blocks| <= b < |g'.blocks| && b != g'.cur && b !in pending
      ensures Closed(g'.blocks[b])
    {
      if b < |g.blocks| && b != g.cur {
        assert g'.blocks[b] == g.blocks[b];
      }
    }
  }

  lemma ThenLayout(g0: Gen, g: Gen, g': Gen, missing: set<nat>)
    requires |g0.blocks| <= |g.blocks| <= |g'.blocks| && BuiltLayout(g0, g, missing) && BuiltLayout(g, g', {})
    ensures BuiltLayout(g0, g', missing)
  {
    var n0, n := |g0.layout|, |g.layout|;
    assert g'.layout[n0..] == g.layout[n0..] + g'.layout[n..];
    forall i | n0 <= i < |g'.layout|
      ensures |g0.blocks| <= g'.layout[i] < |g'.blocks|
    {
      assert i < n ==> g'.layout[i] == g.layout[i];
    }
    forall i, j | n0 <= i < j < |g'.layout|
      ensures g'.layout[i] != g'.layout[j]
    {
      assert i < n ==> g'.layout[i] == g.layout[i];
      assert j < n ==> g'.layout[j] == g.layout[j];
    }
    forall b | b in missing
      ensures b !in g'.layout[n0..]
    {
      assert b !in g'.layout[n..];
    }
  }

  lemma ThenJumps(g0: Gen, g: Gen, g': Gen, ext: set<nat>, pending: set<nat>, missing: set<nat>, ext1: set<nat>)
    requires Ready(g0) && Built(g0, g, ext, pending, missing) && Built(g, g', ext1, {}, {})
    requires forall t | t in ext1 :: t in ext || t in pending
    ensures BuiltJumps(g0, g', ext)
  {
    hide BuiltLayout;
    forall b | 0 <= b < |g.blocks|
      ensures Dead(g'.blocks[b]) ==> Dead(g.blocks[b])
    {
    }
    forall b: nat, i: nat | Added(g0, g', b, i)
      ensures Jumps(g0, g', ext, g'.blocks[b][i])
    {
      if b < |g.blocks| && i < |g.blocks[b]| {
        assert Added(g0, g, b, i) && g'.blocks[b][i] == g.blocks[b][i];
        LandsKept(g0, g, g', ext, g.blocks[b][i]);
      } else {
        assert Added(g, g', b, i);
        forall t | t in g'.blocks[b][i].Targets()
          ensures Lands(g0, g', ext, t)
        {
          assert Lands(g, g', ext1, t);
          assert t in pending ==> g'.blocks[t] == [];
        }
      }
    }
  }

  // ----- statements -----

  lemma AppendsStraight(g: Gen, g': Gen)
    requires Ready(g) && Appends(g, g')
    ensures Straight(g, g')
  {
  }

  lemma EmitStraight(g: Gen, g1: Gen, i: Instr)
    requires Ready(g) && Straight(g, g1) && !i.IsTerminator()
    ensures Straight(g, Emit(g1, i))
  {
  }

  predicate Falls(s: Stmt) { s.Input? || s.Abort? || s.Vardecl? || s.Print? || s.Assign? || s.ExprStmt? }

  lemma InputStraight(g: Gen, x: string)
    requires Ready(g) && GenInput(g, x).Ok?
    ensures Straight(g, GenInput(g, x).value)
  {
    hide Truthiness;
    var b := g.scopes[Level(g.scopes, x).value][x];
    if b.ty == I1 {
      var g1 := Emit(NewSlot(g, I32), CallScan(I1, g.nextSlot));
      var g2 := Define(g1, Load(g1.nextReg, I1, g.nextSlot));
      var (g3, o) := Truthiness(g2, Val(Reg(I1, g1.nextReg), false)).value;
      assert Straight(g, g1) && Straight(g1, g2);
      AppendsStraight(g2, g3);
      StraightTrans(g, g1, g2);
      StraightTrans(g, g2, g3);
      EmitStraight(g, g3, Store(o, b.val));
    }
  }

  lemma VardeclStraight(sigs: Sigs, g: Gen, x: string, ty: Ty, init: Option<Expr>)
    requires Ready(g) && GenVardecl(sigs, g, x, ty, init).Ok?
    ensures Straight(g, GenVardecl(sigs, g, x, ty, init).value)
  {
    var g2 := NewSlot(g, ty).(scopes := Bind(g.scopes, x, Binding(ty, g.nextSlot)));
    assert Straight(g, g2);
    if init.Some? {
      var (g3, v) := GenExpr(sigs, g2, init.value).value;
      var (g4, o) := EnsureType(g3, v.op, ty, CannotInitialize).value;
      AppendsStraight(g2, g3);
      AppendsStraight(g3, g4);
      StraightTrans(g, g2, g3);
      StraightTrans(g, g3, g4);
      EmitStraight(g, g4, Store(o, g.nextSlot));
    }
  }

  lemma FallsStraight(sigs: Sigs, g: Gen, s: Stmt)
    requires Ready(g) && Falls(s) && GenStmt(sigs, g, s).Ok?
    ensures Straight(g, GenStmt(sigs, g, s).value)
  {
    hide Straight, Appends, GenExpr;
    match s
    case Input(x) => InputStraight(g, x);
    case Abort => CallAbortStraight(g);
    case Vardecl(x, t, init) => VardeclStraight(sigs, g, x, IRType(t), init);
    case Assign(x, e) => AssignStraight(sigs, g, x, e);
    case Print(e) => PrintStraight(sigs, g, e);
    case ExprStmt(e) => AppendsStraight(g, GenExpr(sigs, g, e).value.0);
  }

  lemma AssignStraight(sigs: Sigs, g: Gen, x: string, e: Expr)
    requires Ready(g) && GenAssign(sigs, g, x, e).Ok?
    ensures Straight(g, GenAssign(sigs, g, x, e).value)
  {
    hide GenExpr, EnsureType;
    var (g1, v) := GenExpr(sigs, g, e).value;
    var b := g1.scopes[Level(g1.scopes, x).value][x];
    var (g2, o) := EnsureType(g1, v.op, b.ty, CannotAssign).value;
    AppendsStraight(g, g2);
    EmitStraight(g, g2, Store(o, b.val));
  }

  lemma PrintStraight(sigs: Sigs, g: Gen, e: Expr)
    requires Ready(g) && GenPrint(sigs, g, e).Ok?
    ensures Straight(g, GenPrint(sigs, g, e).value)
  {
    AppendsStraight(g, GenExpr(sigs, g, e).value.0);
  }

  lemma ReturnParts(sigs: Sigs, g: Gen, value: Option<Expr>) returns (g1: Gen)
    requires Ready(g) && GenReturn(sigs, g, value).Ok?
    ensures Straight(g, g1) && Ready(g1)
    ensures GenReturn(sigs, g, value).value == Emit(NewBlock(Emit(g1, Br(g.exit))).(cur := |g.blocks|), Unreachable)
  {
    g1 := g;
    if value.Some? {
      var (g2, v) := GenExpr(sigs, g, value.value).value;
      var (g3, o) := EnsureType(g2, v.op, g.result.value.ty, CannotReturn).value;
      AppendsStraight(g, g3);
      g1 := Emit(g3, Store(o, g.result.value.val));
      EmitStraight(g, g3, Store(o, g.result.value.val));
    }
  }

  /** After a return comes a new block that begins with `unreachable`. */
  lemma ReturnBuilt(sigs: Sigs, g: Gen, value: Option<Expr>)
    requires Ready(g) && Open(g.blocks[g.cur]) && GenReturn(sigs, g, value).Ok?
    ensures Built(g, GenReturn(sigs, g, value).value, {g.exit}, {}, {})
  {
    hide GenReturn;
    var g' := GenReturn(sigs, g, value).value;
    var g1 := ReturnParts(sigs, g, value);
    StraightOpen(g.blocks[g.cur], g1.blocks[g.cur]);
    MoveCloses(g1.blocks[g.cur], Br(g.exit));
    assert [] + [Unreachable] == [Unreachable];
    assert g'.blocks == g1.blocks[g.cur := g1.blocks[g.cur] + [Br(g.exit)]] + [[Unreachable]];
    assert g'.layout[|g.layout|..] == [|g.blocks|];
    forall b: nat, i: nat | Added(g, g', b, i)
      ensures Jumps(g, g', {g.exit}, g'.blocks[b][i])
    {
      if b == g.cur && i < |g1.blocks[b]| {
        assert g'.blocks[b][i] == g1.blocks[b][i];
      }
    }
  }

  /** The three blocks of an assertion, with generation in the first. */
  lemma AssertHeadBuilt(g: Gen, ext: set<nat>)
    requires Ready(g) && Open(g.blocks[g.cur])
    ensures var n := |g.blocks|; Built(g, BranchTo(NewBlock(NewBlock(NewBlock(g))), n), ext, {n + 1, n + 2}, {})
  {
    hide Built, NewBlock, Emit, Lands;
    var n, g1, g2, g3 := |g.blocks|, NewBlock(g), NewBlock(NewBlock(g)), NewBlock(NewBlock(NewBlock(g)));
    NothingBuilt(g, ext);
    NewBuilt(g, g, ext, {}, {});
    NewCount(g);
    NewBuilt(g, g1, ext, {} + {n}, {});
    NewCount(g1);
    NewBuilt(g, g2, ext, {} + {n} + {n + 1}, {});
    var p3 := {} + {n} + {n + 1} + {n + 2};
    PendingLands(g, g3, ext, p3, {});
    MoveBuilt(g, g3, Br(n), n, ext, p3, {});
    assert p3 - {n} == {n + 1, n + 2};
  }

  lemma NewCount(g: Gen)
    ensures |NewBlock(g).blocks| == |g.blocks| + 1
  {
  }

  lemma AssertBuilt(sigs: Sigs, g: Gen, e: Expr)
    requires Ready(g) && Open(g.blocks[g.cur]) && GenAssert(sigs, g, e).Ok?
    ensures Built(g, GenAssert(sigs, g, e).value, {g.exit}, {}, {})
  {
    hide Built, GenCondition, Straight, Appends;
    var ext, n := {g.exit}, |g.blocks|;
    var g4 := BranchTo(NewBlock(NewBlock(NewBlock(g))), n);
    AssertHeadBuilt(g, ext);
    var (g5, c) := GenCondition(sigs, g4, e).value;
    AppendsStraight(g4, g5);
    StraightBuilt(g, g4, g5, ext, {n + 1, n + 2}, {});
    PendingLands(g, g5, ext, {n + 1, n + 2}, {});
    MoveBuilt(g, g5, CondBr(c, n + 2, n + 1), n + 1, ext, {n + 1, n + 2}, {});
    var g6 := Emit(g5, CondBr(c, n + 2, n + 1)).(cur := n + 1);
    AssertTailBuilt(g, g6, ext);
  }

  lemma AssertTailBuilt(g: Gen, g6: Gen, ext: set<nat>)
    requires Ready(g) && Ready(g6) && Built(g, g6, ext, {|g.blocks| + 1, |g.blocks| + 2} - {|g.blocks| + 1}, {})
    ensures Built(g, BranchTo(Emit(g6, CallAbort), |g.blocks| + 2), ext, {}, {})
  {
    hide Built, Straight;
    var n := |g.blocks|;
    var p := {n + 1, n + 2} - {n + 1};
    CallAbortStraight(g6);
    StraightBuilt(g, g6, Emit(g6, CallAbort), ext, p, {});
    PendingLands(g, Emit(g6, CallAbort), ext, p, {});
    MoveBuilt(g, Emit(g6, CallAbort), Br(n + 2), n + 2, ext, p, {});
    assert p - {n + 2} == {};
  }

  lemma CallAbortStraight(g: Gen)
    requires Ready(g)
    ensures Straight(g, Emit(g, CallAbort))
  {
  }

  lemma PendingLands(g0: Gen, g: Gen, ext: set<nat>, pending: set<nat>, missing: set<nat>)
    requires Ready(g0) && Built(g0, g, ext, pending, missing)
    ensures forall t | t in pending :: Lands(g0, g, ext, t)
  {
  }

  lemma {:induction false} StmtBuilt(sigs: Sigs, g: Gen, s: Stmt)
    requires Ready(g) && Open(g.blocks[g.cur]) && GenStmt(sigs, g, s).Ok?
    ensures Built(g, GenStmt(sigs, g, s).value, {g.exit}, {}, {})
    decreases s, 2
  {
    hide Built;
    match s
    case Assert(e) => AssertBuilt(sigs, g, e);
    case Return(v) => ReturnBuilt(sigs, g, v);
    case Loop(_, _) => LoopBuilt(sigs, g, s);
    case Branch(_, _, _) => BranchBuilt(sigs, g, s);
    case _ =>
      FallsStraight(sigs, g, s);
      NothingBuilt(g, {g.exit});
      StraightBuilt(g, g, GenStmt(sigs, g, s).value, {g.exit}, {}, {});
  }

  lemma {:induction false} StmtsBuilt(sigs: Sigs, g: Gen, body: seq<Stmt>)
    requires Ready(g) && Open(g.blocks[g.cur]) && GenStmts(sigs, g, body).Ok?
    ensures Built(g, GenStmts(sigs, g, body).value, {g.exit}, {}, {})
    decreases body, 0
  {
    hide Built;
    NothingBuilt(g, {g.exit});
    if body != [] {
      var g1 := GenStmt(sigs, g, body[0]).value;
      StmtBuilt(sigs, g, body[0]);
      BuiltOpen(g, g1, {g.exit}, {}, {});
      StmtsBuilt(sigs, g1, body[1..]);
      ThenBuilt(g, g1, GenStmts(sigs, g, body).value, {g.exit}, {}, {}, {g.exit});
    }
  }

  lemma BuiltOpen(g0: Gen, g: Gen, ext: set<nat>, pending: set<nat>, missing: set<nat>)
    requires Ready(g0) && Built(g0, g, ext, pending, missing)
    ensures Ready(g) && Open(g.blocks[g.cur]) && g.exit == g0.exit && |g0.blocks| <= |g.blocks|
    ensures |g0.blocks| <= g.cur ==> Lands(g0, g, ext, g.cur) || Dead(g.blocks[g.cur])
  {
  }

  /** A piece generated by statements, where one may also jump to `ext`. */
  lemma {:induction false} BodyBuilt(sigs: Sigs, g0: Gen, g: Gen, body: seq<Stmt>, ext: set<nat>, pending: set<nat>, missing: set<nat>)
    requires Ready(g0) && Ready(g) && Built(g0, g, ext, pending, missing) && g0.exit in ext && GenStmts(sigs, g, body).Ok?
    ensures Built(g0, GenStmts(sigs, g, body).value, ext, pending, missing)
    decreases body, 1
  {
    hide Built;
    BuiltOpen(g0, g, ext, pending, missing);
    StmtsBuilt(sigs, g, body);
    ThenBuilt(g0, g, GenStmts(sigs, g, body).value, ext, pending, missing, {g.exit});
  }

  lemma ConditionBuilt(sigs: Sigs, g0: Gen, g: Gen, e: Expr, ext: set<nat>, pending: set<nat>, missing: set<nat>)
    requires Ready(g0) && Ready(g) && Built(g0, g, ext, pending, missing) && GenCondition(sigs, g, e).Ok?
    ensures Built(g0, GenCondition(sigs, g, e).value.0, ext, pending, missing)
  {
    hide Built, GenCondition;
    AppendsStraight(g, GenCondition(sigs, g, e).value.0);
    StraightBuilt(g0, g, GenCondition(sigs, g, e).value.0, ext, pending, missing);
  }

  lemma {:induction false} LoopBuilt(sigs: Sigs, g: Gen, s: Stmt)
    requires Ready(g) && Open(g.blocks[g.cur]) && s.Loop? && GenLoop(sigs, g, s).Ok?
    ensures Built(g, GenLoop(sigs, g, s).value, {g.exit}, {}, {})
    decreases s, 1
  {
    hide Built, GenCondition, GenStmts;
    var ext, head := {g.exit}, |g.blocks|;
    LoopHeadBuilt(g, ext);
    var g1 := EnterScope(BranchTo(NewBlock(g), head));
    BodyBuilt(sigs, g, g1, s.body, ext, {}, {});
    var g2 := GenStmts(sigs, g1, s.body).value;
    HeadStaysLive(sigs, g, g1, s.body, ext);
    LoopTestBuilt(g, g2, ext, head);
    var test := |g2.blocks|;
    var g3 := BranchTo(CreateBlock(NewBlock(LeaveScope(g2))), test);
    ConditionBuilt(sigs, g, g3, s.cond, ext, {test + 1}, {test + 1});
    var (g4, c) := GenCondition(sigs, g3, s.cond).value;
    assert Lands(g, g4, ext, head);
    LoopEndBuilt(g, g4, ext, c, head, test + 1);
  }

  lemma LoopHeadBuilt(g: Gen, ext: set<nat>)
    requires Ready(g) && Open(g.blocks[g.cur])
    ensures Built(g, EnterScope(BranchTo(NewBlock(g), |g.blocks|)), ext, {}, {})
  {
    hide Built;
    var n := |g.blocks|;
    NothingBuilt(g, ext);
    NewBuilt(g, g, ext, {}, {});
    PendingLands(g, NewBlock(g), ext, {} + {n}, {});
    MoveBuilt(g, NewBlock(g), Br(n), n, ext, {} + {n}, {});
    assert {} + {n} - {n} == {};
    SameBuilt(g, BranchTo(NewBlock(g), n), EnterScope(BranchTo(NewBlock(g), n)), ext, {}, {});
  }

  lemma {:induction false} HeadStaysLive(sigs: Sigs, g: Gen, g1: Gen, body: seq<Stmt>, ext: set<nat>)
    requires Ready(g) && Ready(g1) && Open(g1.blocks[g1.cur]) && g1.cur == |g.blocks| && g1.blocks[g1.cur] == []
    requires GenStmts(sigs, g1, body).Ok?
    ensures |g.blocks| < |GenStmts(sigs, g1, body).value.blocks| && !Dead(GenStmts(sigs, g1, body).value.blocks[|g.blocks|])
    decreases body, 2
  {
    hide GenStmts;
    StmtsBuilt(sigs, g1, body);
  }

  lemma LoopTestBuilt(g: Gen, g2: Gen, ext: set<nat>, head: nat)
    requires Ready(g) && Ready(g2) && Built(g, g2, ext, {}, {}) && |g.blocks| <= head < |g2.blocks| && !Dead(g2.blocks[head])
    ensures var test := |g2.blocks|;
            var g3 := BranchTo(CreateBlock(NewBlock(LeaveScope(g2))), test);
            Built(g, g3, ext, {test + 1}, {test + 1}) && !Dead(g3.blocks[head])
  {
    hide Built;
    var test, ga := |g2.blocks|, LeaveScope(g2);
    SameBuilt(g, g2, ga, ext, {}, {});
    NewBuilt(g, ga, ext, {}, {});
    CreateBuilt(g, NewBlock(ga), ext, {} + {test}, {});
    var gb, p := CreateBlock(NewBlock(ga)), {} + {test} + {test + 1};
    assert {} + {test + 1} == {test + 1};
    PendingLands(g, gb, ext, p, {test + 1});
    MoveBuilt(g, gb, Br(test), test, ext, p, {test + 1});
    assert p - {test} == {test + 1};
  }

  lemma LoopEndBuilt(g: Gen, g4: Gen, ext: set<nat>, c: Operand, head: nat, after: nat)
    requires Ready(g) && Ready(g4) && Built(g, g4, ext, {after}, {after}) && Lands(g, g4, ext, head)
    ensures Built(g, InsertBlock(Emit(g4, CondBr(c, head, after)), after).(cur := after), ext, {}, {})
  {
    hide Built;
    InsertBuilt(g, g4, after, ext, {after}, {after});
    assert {after} - {after} == {};
    PendingLands(g, InsertBlock(g4, after), ext, {after}, {});
    MoveBuilt(g, InsertBlock(g4, after), CondBr(c, head, after), after, ext, {after}, {});
  }

  // ----- branches -----

  lemma {:induction false} CaseBuilt(sigs: Sigs, g: Gen, c: Case, exit: nat)
    requires Ready(g) && Open(g.blocks[g.cur]) && GenCase(sigs, g, c, exit).Ok?
    ensures Built(g, GenCase(sigs, g, c, exit).value, {g.exit, exit}, {}, {})
    decreases c
  {
    hide Built, GenCondition, GenStmts;
    var ext := {g.exit, exit};
    NothingBuilt(g, ext);
    ConditionBuilt(sigs, g, g, c.cond, ext, {}, {});
    var (g1, v) := GenCondition(sigs, g, c.cond).value;
    var next, body := |g1.blocks|, |g1.blocks| + 1;
    CaseForkBuilt(g, g1, ext, v);
    var g2 := Emit(NewBlock(CreateBlock(g1)), CondBr(v, body, next)).(cur := body);
    BodyBuilt(sigs, g, g2, c.body, ext, {next}, {next});
    CaseEndBuilt(g, GenStmts(sigs, g2, c.body).value, ext, exit, next);
  }

  lemma CaseForkBuilt(g: Gen, g1: Gen, ext: set<nat>, v: Operand)
    requires Ready(g) && Ready(g1) && Built(g, g1, ext, {}, {})
    ensures var next, body := |g1.blocks|, |g1.blocks| + 1;
            Built(g, Emit(NewBlock(CreateBlock(g1)), CondBr(v, body, next)).(cur := body), ext, {next}, {next})
  {
    hide Built;
    var next, body := |g1.blocks|, |g1.blocks| + 1;
    CreateBuilt(g, g1, ext, {}, {});
    assert {} + {next} == {next};
    NewBuilt(g, CreateBlock(g1), ext, {next}, {next});
    var g2 := NewBlock(CreateBlock(g1));
    PendingLands(g, g2, ext, {next} + {body}, {next});
    MoveBuilt(g, g2, CondBr(v, body, next), body, ext, {next} + {body}, {next});
    assert {next} + {body} - {body} == {next};
  }

  lemma CaseEndBuilt(g: Gen, g3: Gen, ext: set<nat>, exit: nat, next: nat)
    requires Ready(g) && Ready(g3) && Built(g, g3, ext, {next}, {next}) && exit in ext
    ensures Built(g, InsertBlock(Emit(g3, Br(exit)), next).(cur := next), ext, {}, {})
  {
    hide Built;
    InsertBuilt(g, g3, next, ext, {next}, {next});
    assert {next} - {next} == {};
    MoveBuilt(g, InsertBlock(g3, next), Br(exit), next, ext, {next}, {});
  }

  lemma {:induction false} CasesBuilt(sigs: Sigs, g: Gen, cases: seq<Case>, exit: nat)
    requires Ready(g) && Open(g.blocks[g.cur]) && GenCases(sigs, g, cases, exit).Ok?
    ensures Built(g, GenCases(sigs, g, cases, exit).value, {g.exit, exit}, {}, {})
    decreases cases
  {
    hide Built, GenCase;
    var ext := {g.exit, exit};
    NothingBuilt(g, ext);
    if cases != [] {
      var g1 := GenCase(sigs, g, cases[0], exit).value;
      CaseBuilt(sigs, g, cases[0], exit);
      BuiltOpen(g, g1, ext, {}, {});
      CasesBuilt(sigs, g1, cases[1..], exit);
      ThenBuilt(g, g1, GenCases(sigs, g, cases, exit).value, ext, {}, {}, ext);
    }
  }

  lemma {:induction false} ElseBuilt(sigs: Sigs, g: Gen, els: Else)
    requires Ready(g) && Open(g.blocks[g.cur]) && GenElse(sigs, g, els).Ok?
    ensures Built(g, GenElse(sigs, g, els).value, {g.exit}, {}, {})
    decreases els
  {
    hide Built, GenStmts;
    NothingBuilt(g, {g.exit});
    if els.Else? {
      var n := |g.blocks|;
      var g1 := BranchTo(NewBlock(EnterScope(g)), n);
      LoopHeadBuilt(g, {g.exit});
      SameBuilt(g, EnterScope(BranchTo(NewBlock(g), n)), g1, {g.exit}, {}, {});
      BodyBuilt(sigs, g, g1, els.body, {g.exit}, {}, {});
      var g2 := GenStmts(sigs, g1, els.body).value;
      SameBuilt(g, g2, LeaveScope(g2), {g.exit}, {}, {});
    }
  }

  lemma BranchHeadBuilt(g: Gen, ext: set<nat>)
    requires Ready(g) && Open(g.blocks[g.cur])
    ensures var n := |g.blocks|;
            Built(g, BranchTo(NewBlock(BranchTo(CreateBlock(NewBlock(g)), n)), n + 2), ext, {n + 1}, {n + 1})
  {
    hide Built;
    var n := |g.blocks|;
    NothingBuilt(g, ext);
    NewBuilt(g, g, ext, {}, {});
    CreateBuilt(g, NewBlock(g), ext, {} + {n}, {});
    var ga, p := CreateBlock(NewBlock(g)), {} + {n} + {n + 1};
    assert {} + {n + 1} == {n + 1};
    PendingLands(g, ga, ext, p, {n + 1});
    MoveBuilt(g, ga, Br(n), n, ext, p, {n + 1});
    assert p - {n} == {n + 1};
    var gb := BranchTo(ga, n);
    NewBuilt(g, gb, ext, {n + 1}, {n + 1});
    PendingLands(g, NewBlock(gb), ext, {n + 1} + {n + 2}, {n + 1});
    MoveBuilt(g, NewBlock(gb), Br(n + 2), n + 2, ext, {n + 1} + {n + 2}, {n + 1});
    assert {n + 1} + {n + 2} - {n + 2} == {n + 1};
  }

  lemma {:induction false} BranchBuilt(sigs: Sigs, g: Gen, s: Stmt)
    requires Ready(g) && Open(g.blocks[g.cur]) && s.Branch? && GenBranch(sigs, g, s).Ok?
    ensures Built(g, GenBranch(sigs, g, s).value, {g.exit}, {}, {})
    decreases s, 1
  {
    hide Built, GenCases, GenElse;
    var ext, exit := {g.exit}, |g.blocks| + 1;
    BranchHeadBuilt(g, ext);
    var g1 := BranchTo(NewBlock(BranchTo(CreateBlock(NewBlock(g)), |g.blocks|)), exit + 1);
    BuiltOpen(g, g1, ext, {exit}, {exit});
    CasesBuilt(sigs, g1, s.cases, exit);
    var g2 := GenCases(sigs, g1, s.cases, exit).value;
    ThenBuilt(g, g1, g2, ext, {exit}, {exit}, {g1.exit, exit});
    BuiltOpen(g, g2, ext, {exit}, {exit});
    ElseBuilt(sigs, g2, s.els);
    var g3 := GenElse(sigs, g2, s.els).value;
    ThenBuilt(g, g2, g3, ext, {exit}, {exit}, {g2.exit});
    InsertBuilt(g, g3, exit, ext, {exit}, {exit});
    assert {exit} - {exit} == {};
    PendingLands(g, InsertBlock(g3, exit), ext, {exit}, {});
    MoveBuilt(g, InsertBlock(g3, exit), Br(exit), exit, ext, {exit}, {});
  }

  // ----- functions -----

  lemma {:induction false} ParamsStraight(g: Gen, params: seq<Param>, index: nat)
    requires Ready(g) && GenParams(g, params, index).Ok?
    ensures Straight(g, GenParams(g, params, index).value)
    decreases params
  {
    if params != [] {
      var ty, g' := IRType(params[0].ty), GenParams(g, params, index).value;
      var g1 := Emit(NewSlot(g, ty), Store(Arg(ty, index), g.nextSlot));
      var g2 := g1.(scopes := Bind(g.scopes, params[0].name, Binding(ty, g.nextSlot)));
      ParamsStraight(g2, params[1..], index + 1);
      assert Straight(g, g2);
      StraightTrans(g, g2, g');
    }
  }

  lemma ResultStraight(g: Gen, ret: Ty, entryPoint: bool)
    requires Ready(g) && GenResult(g, ret, entryPoint).Ok?
    ensures Straight(g, GenResult(g, ret, entryPoint).value)
  {
    if !ret.Void? && entryPoint {
      var g1 := NewSlot(g, ret).(result := Some(Binding(ret, g.nextSlot)));
      var (g2, zero) := EnsureType(g1, Const(I64, 0), ret, InternalError).value;
      assert Straight(g, g1);
      AppendsStraight(g1, g2);
      StraightTrans(g, g1, g2);
      EmitStraight(g, g2, Store(zero, g.nextSlot));
    }
  }

  /** The empty function: an entry block, and an exit block that is block 1. */
  const START := NewBlock(EnterScope(BLANK)).(exit := 1)

  lemma PrologueBuilt(f: Function)
    requires GenPrologue(f).Ok?
    ensures Built(START, GenPrologue(f).value, {1}, {1}, {1})
  {
    hide GenParams, GenResult, Built;
    var g0 := NewBlock(EnterScope(BLANK));
    var g1 := GenResult(g0, IRType(f.ret), f.name == "").value;
    var g2 := GenParams(g1, f.params, 0).value;
    ResultStraight(g0, IRType(f.ret), f.name == "");
    ParamsStraight(g1, f.params, 0);
    StraightTrans(g0, g1, g2);
    var ge := g2.(exit := 1);
    NothingBuilt(START, {1});
    assert Straight(START, ge);
    StraightBuilt(START, START, ge, {1}, {}, {});
    CreateBuilt(START, ge, {1}, {}, {});
    assert {} + {1} == {1};
    SameBuilt(START, CreateBlock(ge), GenPrologue(f).value, {1}, {1}, {1});
  }

  lemma BodyOfBuilt(sigs: Sigs, f: Function, g: Gen, g1: Gen)
    requires GenPrologue(f) == Ok(g) && Ready(g) && GenStmts(sigs, g, f.body) == Ok(g1) && Ready(g1)
    ensures Built(START, InsertBlock(Emit(g1, Br(g1.exit)), g1.exit).(cur := g1.exit), {1}, {}, {}) && g1.exit == 1
    ensures 1 < |g1.blocks| && g1.cur != 1 && g1.blocks[1] == []
  {
    hide GenStmts, GenPrologue, Built;
    PrologueBuilt(f);
    BuiltOpen(START, g, {1}, {1}, {1});
    StmtsBuilt(sigs, g, f.body);
    ThenBuilt(START, g, g1, {1}, {1}, {1}, {1});
    BuiltOpen(START, g1, {1}, {1}, {1});
    ExitWaits(g1);
    InsertBuilt(START, g1, 1, {1}, {1}, {1});
    assert {1} - {1} == {};
    MoveBuilt(START, InsertBlock(g1, 1), Br(1), 1, {1}, {1}, {});
  }

  lemma ExitWaits(g: Gen)
    requires Built(START, g, {1}, {1}, {1})
    ensures 1 < |g.blocks| && g.cur != 1 && g.blocks[1] == []
  {
  }

  /** Every block is dead or ends in its only terminator. */
  predicate WellShaped(blocks: Blocks) {
    forall b | 0 <= b < |blocks| :: Closed(blocks[b])
  }

  /** Jumps lead to existing live blocks. */
  predicate JumpsLand(blocks: Blocks) {
    forall b, i | 0 <= b < |blocks| && 0 <= i < |blocks[b]| ::
      forall t | t in blocks[b][i].Targets() :: t < |blocks| && !Dead(blocks[t])
  }

  /** Only the last instruction of the exit block returns. */
  predicate OneExit(blocks: Blocks, exit: nat) {
    forall b, i | 0 <= b < |blocks| && 0 <= i < |blocks[b]| ::
      blocks[b][i].Ret? || blocks[b][i].RetVoid? <==> b == exit && i == |blocks[b]| - 1
  }

  /** Every block stands in the function exactly once, the entry block first and the block
      every return goes to last. */
  predicate InsertedOnce(blocks: Blocks, layout: seq<nat>) {
    && (forall b | 0 <= b < |blocks| :: b in layout)
    && (forall i | 0 <= i < |layout| :: layout[i] < |blocks|)
    && (forall i, j | 0 <= i < j < |layout| :: layout[i] != layout[j])
    && layout != [] && layout[0] == 0 && layout[|layout| - 1] == 1
  }

  lemma EpilogueShape(g1: Gen, ge: Gen)
    requires Ready(g1) && g1.exit == 1 && 1 < |g1.blocks| && g1.cur != 1 && g1.blocks[1] == []
    requires ge == InsertBlock(Emit(g1, Br(1)), 1).(cur := 1) && Built(START, ge, {1}, {}, {})
    ensures var gf := GenEpilogue(g1);
            && |gf.blocks| == |ge.blocks| && gf.layout == ge.layout
            && (forall b | 0 <= b < |gf.blocks| && b != 1 :: gf.blocks[b] == ge.blocks[b])
            && Terminated(gf.blocks[1]) && !Dead(gf.blocks[1])
            && (forall i | 0 <= i < |gf.blocks[1]| :: gf.blocks[1][i].Targets() == {})
            && (forall i | 0 <= i < |gf.blocks[1]| ::
                  gf.blocks[1][i].Ret? || gf.blocks[1][i].RetVoid? <==> i == |gf.blocks[1]| - 1)
  {
    assert ge.blocks[1] == [];
    match g1.result
    case None => assert GenEpilogue(g1).blocks[1] == [RetVoid];
    case Some(b) =>
      assert GenEpilogue(g1).blocks[1] == [Load(g1.nextReg, b.ty, b.val), Ret(Reg(b.ty, g1.nextReg))];
  }

  lemma FinalParts(sigs: Sigs, f: Function, gf: Gen) returns (g1: Gen, ge: Gen)
    requires GenFunction(sigs, f) == Ok(gf)
    ensures Ready(g1) && g1.exit == 1 && 1 < |g1.blocks| && g1.cur != 1 && g1.blocks[1] == []
    ensures ge == InsertBlock(Emit(g1, Br(1)), 1).(cur := 1) && Built(START, ge, {1}, {}, {})
    ensures gf == GenEpilogue(g1)
  {
    hide GenStmts, GenPrologue, Built, GenEpilogue;
    var g := GenPrologue(f).value;
    g1 := GenStmts(sigs, g, f.body).value;
    BodyOfBuilt(sigs, f, g, g1);
    ge := InsertBlock(Emit(g1, Br(1)), 1).(cur := 1);
  }

  /** The control-flow graph of every function is well formed, and in it every register
      is set once, before its uses and in the same block, so on every path that leads there. */
  lemma CodeIsWellFormed(sigs: Sigs, f: Function, gf: Gen)
    requires GenFunction(sigs, f) == Ok(gf)
    ensures WellShaped(gf.blocks) && JumpsLand(gf.blocks) && OneExit(gf.blocks, 1) && InsertedOnce(gf.blocks, gf.layout)
    ensures Registers.UsesAreSet(gf.blocks) && Registers.SetOnce(gf.blocks)
    ensures 1 < |gf.blocks| && !Dead(gf.blocks[0])
  {
    hide GenFunction, GenEpilogue, BuiltJumps, BuiltLayout, Registers.UsesAreSet, Registers.SetOnce, Registers.AllOrdered;
    Registers.CodeRegistered(sigs, f, gf);
    Registers.UsesSet(gf.blocks, |f.params|);
    var g1, ge := FinalParts(sigs, f, gf);
    EpilogueShape(g1, ge);
    FinalJumps(gf, ge);
    FinalLayout(gf, ge);
    forall b | 0 <= b < |gf.blocks|
      ensures Closed(gf.blocks[b])
    {
    }
  }

  lemma FinalJumps(gf: Gen, ge: Gen)
    requires Built(START, ge, {1}, {}, {}) && 1 < |ge.blocks| && ge.blocks[1] == []
    requires |gf.blocks| == |ge.blocks| && forall b | 0 <= b < |gf.blocks| && b != 1 :: gf.blocks[b] == ge.blocks[b]
    requires Terminated(gf.blocks[1]) && !Dead(gf.blocks[1])
    requires forall i | 0 <= i < |gf.blocks[1]| :: gf.blocks[1][i].Targets() == {}
    requires forall i | 0 <= i < |gf.blocks[1]| ::
      gf.blocks[1][i].Ret? || gf.blocks[1][i].RetVoid? <==> i == |gf.blocks[1]| - 1
    ensures JumpsLand(gf.blocks) && OneExit(gf.blocks, 1)
  {
    hide BuiltLayout, BuiltBlocks;
    forall b, i | 0 <= b < |gf.blocks| && 0 <= i < |gf.blocks[b]|
      ensures forall t | t in gf.blocks[b][i].Targets() :: t < |gf.blocks| && !Dead(gf.blocks[t])
      ensures gf.blocks[b][i].Ret? || gf.blocks[b][i].RetVoid? <==> b == 1 && i == |gf.blocks[b]| - 1
    {
      if b != 1 {
        assert START.blocks == [[]];
        assert Added(START, ge, b, i);
        assert Jumps(START, ge, {1}, ge.blocks[b][i]);
      }
    }
  }

  lemma FinalLayout(gf: Gen, ge: Gen)
    requires Built(START, ge, {1}, {}, {}) && |gf.blocks| == |ge.blocks| && gf.layout == ge.layout
    requires ge.layout != [] && ge.layout[|ge.layout| - 1] == 1
    ensures InsertedOnce(gf.blocks, gf.layout)
  {
    hide BuiltJumps, BuiltBlocks;
    assert START.layout == [0] && START.blocks == [[]];
    assert ge.layout[0] == 0;
    forall i, j | 0 <= i < j < |gf.layout|
      ensures gf.layout[i] != gf.layout[j]
    {
      assert 1 <= ge.layout[j];
    }
    forall b | 0 <= b < |gf.blocks|
      ensures b in gf.layout
    {
      assert b != 0 ==> b in ge.layout[1..];
    }
  }

  // ----- reachable blocks -----

  /** A path of jumps from the entry block. */
  predicate Path(blocks: Blocks, p: seq<nat>) {
    && p != [] && p[0] == 0
    && forall i | 0 <= i < |p| - 1 ::
      p[i] < |blocks| && blocks[p[i]] != [] && p[i + 1] in blocks[p[i]][|blocks[p[i]]| - 1].Targets()
  }

  /** Every block that can be reached is an inserted block ending in its only terminator;
      in particular the code behind a return cannot be reached. */
  lemma ReachableBlocks(sigs: Sigs, f: Function, gf: Gen, p: seq<nat>)
    requires GenFunction(sigs, f) == Ok(gf) && Path(gf.blocks, p)
    ensures var b := p[|p| - 1]; b < |gf.blocks| && b in gf.layout && !Dead(gf.blocks[b]) && Terminated(gf.blocks[b])
  {
    CodeIsWellFormed(sigs, f, gf);
    if |p| > 1 {
      var a := p[|p| - 2];
      var last := gf.blocks[a][|gf.blocks[a]| - 1];
      assert p[|p| - 2 + 1] in last.Targets();
    }
  }
}
