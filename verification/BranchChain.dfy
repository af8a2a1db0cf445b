/** A branch as a search, in the generated code: the conditions of the cases, each evaluated
    once and in order, decide which one body is entered; until then the machine is in no
    body and looks at no later condition. */
module BranchChain {
  import opened Ast
  import opened IR
  import opened Typing
  import opened Codegen
  import opened Source
  import opened Growth
  import opened SimExpr
  import opened SimStmt

  // ----- the blocks of a chain of cases -----

  /** The state in which case `i` of the chain is generated; after the last one, the state
      in which generation goes on. */
  function Head(sigs: Sigs, g: Gen, cases: seq<Case>, exit: nat, i: nat): (r: Gen)
    requires Ready(g) && GenCases(sigs, g, cases, exit).Ok? && i <= |cases|
    ensures Ready(r)
    decreases i
  {
    if i == 0 then g else Head(sigs, GenCase(sigs, g, cases[0], exit).value, cases[1..], exit, i - 1)
  }

  lemma {:induction false} HeadStep(sigs: Sigs, g: Gen, cases: seq<Case>, exit: nat, i: nat)
    requires Ready(g) && GenCases(sigs, g, cases, exit).Ok? && i < |cases|
    ensures GenCase(sigs, Head(sigs, g, cases, exit, i), cases[i], exit) == Ok(Head(sigs, g, cases, exit, i + 1))
    decreases i
  {
    hide GenCase;
    if i > 0 {
      HeadStep(sigs, GenCase(sigs, g, cases[0], exit).value, cases[1..], exit, i - 1);
    }
  }

  /** A case takes at least two new blocks; the first is where the next case begins. */
  lemma CaseBlocks(sigs: Sigs, g: Gen, c: Case, exit: nat, g': Gen)
    requires Ready(g) && GenCase(sigs, g, c, exit) == Ok(g')
    ensures Ready(g') && g'.cur == |g.blocks| && |g.blocks| + 2 <= |g'.blocks|
  {
    hide GenStmts, GenCondition;
  }

  lemma {:induction false} HeadsApart(sigs: Sigs, g: Gen, cases: seq<Case>, exit: nat, i: nat, j: nat)
    requires Ready(g) && GenCases(sigs, g, cases, exit).Ok? && i <= j <= |cases|
    ensures |Head(sigs, g, cases, exit, i).blocks| + 2 * (j - i) <= |Head(sigs, g, cases, exit, j).blocks|
    ensures 0 < j ==> Head(sigs, g, cases, exit, j).cur == |Head(sigs, g, cases, exit, j - 1).blocks|
    decreases j
  {
    hide GenCase, GenCases, Head;
    if 0 < j {
      HeadStep(sigs, g, cases, exit, j - 1);
      var a, b := Head(sigs, g, cases, exit, j - 1), Head(sigs, g, cases, exit, j);
      CaseBlocks(sigs, a, cases[j - 1], exit, b);
      if i < j {
        HeadsApart(sigs, g, cases, exit, i, j - 1);
      }
    }
  }

  /** The block is one of those of the body of case `i`. */
  predicate InBody(sigs: Sigs, g: Gen, cases: seq<Case>, exit: nat, i: nat, b: nat)
    requires Ready(g) && GenCases(sigs, g, cases, exit).Ok? && i < |cases|
  {
    |Head(sigs, g, cases, exit, i).blocks| < b < |Head(sigs, g, cases, exit, i + 1).blocks|
  }

  /** The block is in no body, and no condition after that of case `k` begins in it. */
  predicate Elsewhere(sigs: Sigs, g: Gen, cases: seq<Case>, exit: nat, k: nat, b: nat)
    requires Ready(g) && GenCases(sigs, g, cases, exit).Ok?
  {
    && (forall i | 0 <= i < |cases| :: !InBody(sigs, g, cases, exit, i, b))
    && (forall i | k < i <= |cases| :: b != Head(sigs, g, cases, exit, i).cur)
  }

  lemma HeadElsewhere(sigs: Sigs, g: Gen, cases: seq<Case>, exit: nat, k: nat, i: nat)
    requires Ready(g) && GenCases(sigs, g, cases, exit).Ok? && i <= k && i <= |cases|
    ensures Elsewhere(sigs, g, cases, exit, k, Head(sigs, g, cases, exit, i).cur)
  {
    hide GenCase, GenCases, Head;
    var b := Head(sigs, g, cases, exit, i).cur;
    HeadsApart(sigs, g, cases, exit, i, i);
    forall j | 0 <= j <= |cases|
      ensures j < |cases| ==> !InBody(sigs, g, cases, exit, j, b)
      ensures k < j ==> b != Head(sigs, g, cases, exit, j).cur
    {
      if j + 1 < i {
        HeadsApart(sigs, g, cases, exit, j + 1, i - 1);
      } else if i < j {
        HeadsApart(sigs, g, cases, exit, i, j - 1);
        HeadsApart(sigs, g, cases, exit, j, j);
      }
    }
  }

  /** Blocks made before the chain. */
  lemma BeforeElsewhere(sigs: Sigs, g: Gen, cases: seq<Case>, exit: nat, k: nat, b: nat)
    requires Ready(g) && GenCases(sigs, g, cases, exit).Ok? && b < |g.blocks|
    ensures Elsewhere(sigs, g, cases, exit, k, b)
  {
    hide GenCase, GenCases;
    forall i | 0 <= i <= |cases|
      ensures |g.blocks| <= |Head(sigs, g, cases, exit, i).blocks|
      ensures k < i ==> b != Head(sigs, g, cases, exit, i).cur
    {
      HeadsApart(sigs, g, cases, exit, 0, i);
      if 0 < i { HeadsApart(sigs, g, cases, exit, 0, i - 1); }
    }
  }

  // ----- the conditions before the one that decides -----

  /** The state after the first `k` conditions, if every one of them is false. */
  function AllFalse(cx: Ctx, fr: Frame, cases: seq<Case>, k: nat, t: seq<Event>): Option<(Frame, seq<Event>)>
    requires k <= |cases|
    decreases k
  {
    if k == 0 then Some((fr, t))
    else
      match EvalCond(cx, fr, cases[0].cond, t)
      case Truth(b, t1) =>
        if b then None else AllFalse(cx, MarkMissing(fr, DeclsIn(cases[0].body)), cases[1..], k - 1, t1)
      case CondHalt(_, _) => None
  }

  /** In straight-line code the machine stays in its block. */
  lemma {:induction false} StaysInBlock(w: World, m: MState, n: nat, j: nat)
    requires m.blk < |w.code| && m.pc + n <= |w.code[m.blk]| && j <= n
    requires forall i | m.pc <= i < m.pc + n :: !w.code[m.blk][i].IsTerminator()
    ensures var c := Go(w, m, j); c.Live? ==> c.m.blk == m.blk && c.m.pc == m.pc + j
    decreases j
  {
    hide ExecInstr, Run;
    if j == 0 {
      NoSteps(w, m);
    } else {
      StaysInBlock(w, m, n, j - 1);
      LastStep(w, m, j - 1);
      var c := Go(w, m, j - 1);
      if c.Live? {
        FallsThrough(w, c.m);
      }
    }
  }

  lemma LastStep(w: World, m: MState, j: nat)
    ensures Go(w, m, j + 1) == Step(w.code, w.cx.env, w.args, Go(w, m, j))
  {
    hide ExecInstr, Step;
    RunAdds(w.code, w.cx.env, w.args, Live(m), j, 1);
    var c := Go(w, m, j);
    assert Run(w.code, w.cx.env, w.args, Step(w.code, w.cx.env, w.args, c), 0) == Step(w.code, w.cx.env, w.args, c);
  }

  lemma FallsThrough(w: World, m: MState)
    requires m.blk < |w.code| && m.pc < |w.code[m.blk]| && !w.code[m.blk][m.pc].IsTerminator()
    ensures var c := Step(w.code, w.cx.env, w.args, Live(m)); c.Live? ==> c.m.blk == m.blk && c.m.pc == m.pc + 1
  {
    hide OperandValue, OperandValues, ApplyBin, ApplyCmp, ApplyCast, Wrap;
  }

  /** While a condition is evaluated the machine is in the block where it was generated. */
  lemma TestStays(w: World, g: Gen, g1: Gen, v: Operand, yes: nat, no: nat, m: MState, k: nat, j: nat)
    requires Ready(g) && Ready(g1) && At(g, m) && Appends(g, g1) && Within(Emit(g1, CondBr(v, yes, no)), w.code)
    requires m.pc + k <= |g1.blocks[g1.cur]| + 1 && j < k
    ensures var c := Go(w, m, j); c.Live? ==> c.m.blk == g.cur
  {
    hide ExecInstr, Run;
    var b, n := g1.blocks[g.cur], |g1.blocks[g.cur]| - |g.blocks[g.cur]|;
    assert b <= Emit(g1, CondBr(v, yes, no)).blocks[g.cur] <= w.code[g.cur];
    forall i | m.pc <= i < m.pc + n
      ensures !w.code[m.blk][i].IsTerminator()
    {
      assert w.code[g.cur][i] == b[i];
    }
    StaysInBlock(w, m, n, j);
  }

  /** The machine, if it has not halted, is at one of the first `k` conditions. */
  predicate Testing(w: World, g: Gen, cases: seq<Case>, exit: nat, k: nat, c: Config)
    requires Ready(g) && GenCases(w.cx.sigs, g, cases, exit).Ok? && k <= |cases|
  {
    c.Live? ==> exists i: nat :: i < k && c.m.blk == Head(w.cx.sigs, g, cases, exit, i).cur
  }

  lemma ChainWithin(w: World, g: Gen, g1: Gen, g': Gen, cases: seq<Case>, exit: nat)
    requires Ready(g) && g.scopes != [] && cases != [] && GenCase(w.cx.sigs, g, cases[0], exit) == Ok(g1) && Ready(g1)
    requires GenCases(w.cx.sigs, g1, cases[1..], exit) == Ok(g') && Within(g', w.code)
    ensures Within(g1, w.code)
  {
    hide GenCase, GenCases, Within, ScopesGrow;
    CaseGrows(w.cx.sigs, g, cases[0], exit);
    CasesGrow(w.cx.sigs, g1, cases[1..], exit);
    WithinGrows(g1, g', DeclsOfCases(cases[1..]), w.code);
  }

  /** Through the conditions that are false. */
  lemma {:induction false} ReachesCase(w: World, g: Gen, g': Gen, cases: seq<Case>, exit: nat, fr: Frame, m: MState,
                                       k: nat, fr1: Frame, t1: seq<Event>)
    returns (n: nat, m1: MState)
    requires Sound(w.cx.ret, g) && Simulates(w, g, m, fr, m.trace)
    requires GenCases(w.cx.sigs, g, cases, exit) == Ok(g') && Within(g', w.code)
    requires k <= |cases| && AllFalse(w.cx, fr, cases, k, m.trace) == Some((fr1, t1))
    ensures Go(w, m, n) == Live(m1) && m1.mem == m.mem
    ensures var h := Head(w.cx.sigs, g, cases, exit, k);
            Sound(w.cx.ret, h) && Simulates(w, h, m1, fr1, t1) && GenCases(w.cx.sigs, h, cases[k..], exit) == Ok(g')
    ensures forall j | 0 <= j < n :: Testing(w, g, cases, exit, k, Go(w, m, j))
    decreases k
  {
    hide ExecInstr, Wrap, GenCase, GenCases, Within, Distinct, Below, EvalCond, Simulates, Run;
    if k == 0 {
      NoSteps(w, m);
      assert cases[0..] == cases;
      n, m1 := 0, m;
    } else {
      var g1, k1, ma := FirstFails(w, g, g', cases, exit, fr, m);
      var t := EvalCond(w.cx, fr, cases[0].cond, m.trace).trace;
      var k2, mb := ReachesCase(w, g1, g', cases[1..], exit, MarkMissing(fr, DeclsIn(cases[0].body)), ma, k - 1, fr1, t1);
      assert cases[1..][k - 1..] == cases[k..];
      GoOn(w, m, ma, k1, k2);
      n, m1 := k1 + k2, mb;
      forall j | 0 <= j < n
        ensures Testing(w, g, cases, exit, k, Go(w, m, j))
      {
        if j < k1 {
          assert Head(w.cx.sigs, g, cases, exit, 0) == g;
        } else {
          GoOn(w, m, ma, k1, j - k1);
          LaterTest(w, g, g1, cases, exit, k, Go(w, m, j));
        }
      }
    }
  }

  lemma LaterTest(w: World, g: Gen, g1: Gen, cases: seq<Case>, exit: nat, k: nat, c: Config)
    requires Ready(g) && GenCases(w.cx.sigs, g, cases, exit).Ok? && 0 < k <= |cases|
    requires GenCase(w.cx.sigs, g, cases[0], exit) == Ok(g1) && Ready(g1)
    requires GenCases(w.cx.sigs, g1, cases[1..], exit).Ok? && Testing(w, g1, cases[1..], exit, k - 1, c)
    ensures Testing(w, g, cases, exit, k, c)
  {
    hide GenCase, GenCases;
    if c.Live? {
      var i: nat :| i < k - 1 && c.m.blk == Head(w.cx.sigs, g1, cases[1..], exit, i).cur;
      assert Head(w.cx.sigs, g, cases, exit, i + 1) == Head(w.cx.sigs, g1, cases[1..], exit, i);
    }
  }

  lemma FirstFails(w: World, g: Gen, g': Gen, cases: seq<Case>, exit: nat, fr: Frame, m: MState)
    returns (g1: Gen, k: nat, m1: MState)
    requires Sound(w.cx.ret, g) && Simulates(w, g, m, fr, m.trace) && cases != []
    requires GenCases(w.cx.sigs, g, cases, exit) == Ok(g') && Within(g', w.code)
    requires EvalCond(w.cx, fr, cases[0].cond, m.trace).Truth? && !EvalCond(w.cx, fr, cases[0].cond, m.trace).b
    ensures GenCase(w.cx.sigs, g, cases[0], exit) == Ok(g1) && Ready(g1) && GenCases(w.cx.sigs, g1, cases[1..], exit) == Ok(g')
    ensures Go(w, m, k) == Live(m1) && m1.mem == m.mem && Sound(w.cx.ret, g1)
    ensures m1.trace == EvalCond(w.cx, fr, cases[0].cond, m.trace).trace
    ensures Simulates(w, g1, m1, MarkMissing(fr, DeclsIn(cases[0].body)), m1.trace)
    ensures forall j | 0 <= j < k :: var c := Go(w, m, j); c.Live? ==> c.m.blk == g.cur
  {
    hide ExecInstr, Wrap, GenCase, Within, Distinct, Below, EvalCond, Run, Appends;
    g1 := GenCase(w.cx.sigs, g, cases[0], exit).value;
    ChainWithin(w, g, g1, g', cases, exit);
    k, m1 := TestsInPlace(w, g, g1, cases[0], exit, fr, m);
  }

  lemma TestsInPlace(w: World, g: Gen, g1: Gen, c: Case, exit: nat, fr: Frame, m: MState) returns (k: nat, m1: MState)
    requires Sound(w.cx.ret, g) && Simulates(w, g, m, fr, m.trace)
    requires GenCase(w.cx.sigs, g, c, exit) == Ok(g1) && Ready(g1) && Within(g1, w.code)
    ensures Sound(w.cx.ret, g1)
    ensures match EvalCond(w.cx, fr, c.cond, m.trace)
            case CondHalt(o, t) => HaltsAs(w, m, k, o, t)
            case Truth(b, t) =>
              && Go(w, m, k) == Live(m1) && m1.mem == m.mem && m1.trace == t && m1.pc == 0
              && m1.blk == (if b then |g.blocks| + 1 else g1.cur)
              && (if b then Agree(g.scopes, fr, m1.mem) && ResultHolds(g, m1.mem, w.cx.initial)
                  else Simulates(w, g1, m1, MarkMissing(fr, DeclsIn(c.body)), t))
    ensures forall j | 0 <= j < k :: var c := Go(w, m, j); c.Live? ==> c.m.blk == g.cur
  {
    hide ExecInstr, Wrap, GenCase, GenStmts, GenCondition, Within, Distinct, Below, EvalCond, Run, ResultHolds, Agree;
    var p := CaseHasShape(w.cx.sigs, g, c, exit, g1);
    k, m1 := CaseTests(w, g, g1, c, exit, p, fr, m);
    CaseFacts(w.cx.sigs, g, c, exit, g1, p);
    CaseWithin(w.cx.sigs, g, c, exit, g1, p, w.code);
    forall j | 0 <= j < k
      ensures var c := Go(w, m, j); c.Live? ==> c.m.blk == g.cur
    {
      TestStays(w, g, p.g1, p.v, |p.g1.blocks| + 1, |p.g1.blocks|, m, k, j);
    }
  }

  // ----- branches -----

  /** Where the first condition of a branch is generated, and the block after the branch. */
  function CaseHead(sigs: Sigs, g: Gen, s: Stmt, i: nat): (r: Gen)
    requires Ready(g) && s.Branch? && GenBranch(sigs, g, s).Ok? && i <= |s.cases|
    ensures Ready(r)
  {
    Head(sigs, BranchHead(g), s.cases, |g.blocks| + 1, i)
  }

  /** The first block of the body of case `k`. */
  function BodyOf(sigs: Sigs, g: Gen, s: Stmt, k: nat): nat
    requires Ready(g) && s.Branch? && GenBranch(sigs, g, s).Ok? && k < |s.cases|
  {
    |CaseHead(sigs, g, s, k).blocks| + 1
  }

  /** No body has been entered, and no condition after that of case `k` looked at. */
  predicate Searching(sigs: Sigs, g: Gen, s: Stmt, k: nat, c: Config)
    requires Ready(g) && s.Branch? && GenBranch(sigs, g, s).Ok?
  {
    c.Live? ==> Elsewhere(sigs, BranchHead(g), s.cases, |g.blocks| + 1, k, c.m.blk)
  }

  lemma TestingIsSearching(w: World, g: Gen, s: Stmt, k: nat, c: Config)
    requires Ready(g) && s.Branch? && GenBranch(w.cx.sigs, g, s).Ok? && k <= |s.cases|
    requires Testing(w, BranchHead(g), s.cases, |g.blocks| + 1, k, c)
    ensures Searching(w.cx.sigs, g, s, k, c)
  {
    hide GenCases, GenElse, Head, Elsewhere;
    if c.Live? {
      var i: nat :| i < k && c.m.blk == Head(w.cx.sigs, BranchHead(g), s.cases, |g.blocks| + 1, i).cur;
      HeadElsewhere(w.cx.sigs, BranchHead(g), s.cases, |g.blocks| + 1, k, i);
    }
  }

  /** The two jumps that lead to the first condition stay in blocks made before it. */
  lemma EnteringIsSearching(w: World, g: Gen, g': Gen, s: Stmt, m: MState, k: nat)
    requires Ready(g) && At(g, m) && g.scopes != [] && s.Branch? && GenBranch(w.cx.sigs, g, s) == Ok(g') && Within(g', w.code)
    ensures Go(w, m, 2) == Live(m.(blk := BranchHead(g).cur, pc := 0))
    ensures forall j | 0 <= j < 2 :: Searching(w.cx.sigs, g, s, k, Go(w, m, j))
  {
    hide ExecInstr, GenBranch, GenCases, GenElse, Within, Elsewhere, Run, BranchHead;
    var p := BranchHasShape(w.cx.sigs, g, s, g');
    BranchEnters(w, g, s, g', p, m);
    BranchStarts(w, g, s, g', p, m);
    NoSteps(w, m);
    BeforeElsewhere(w.cx.sigs, BranchHead(g), s.cases, |g.blocks| + 1, k, g.cur);
    BeforeElsewhere(w.cx.sigs, BranchHead(g), s.cases, |g.blocks| + 1, k, |g.blocks|);
  }

  lemma BranchHeadCount(g: Gen)
    requires Ready(g)
    ensures |BranchHead(g).blocks| == |g.blocks| + 3
  {
  }

  lemma BranchStarts(w: World, g: Gen, s: Stmt, g': Gen, p: BranchParts, m: MState)
    requires Ready(g) && At(g, m) && g.scopes != [] && s.Branch? && BranchShape(w.cx.sigs, g, s, g', p) && Within(g', w.code)
    ensures Go(w, m, 1) == Live(m.(blk := |g.blocks|, pc := 0)) && |g.blocks| < |BranchHead(g).blocks|
  {
    hide ExecInstr, GenCases, GenElse, Within;
    BranchHeadCount(g);
    BranchWithin(w.cx.sigs, g, s, g', p, w.code);
    HeadWithin(g, w.code);
    JumpSteps(w, g, p.entry, m);
  }

  /** From the start of a branch through the first `k` conditions, all of them false. */
  lemma ReachesCaseHead(w: World, g: Gen, g': Gen, s: Stmt, fr: Frame, m: MState, k: nat, fr1: Frame, t1: seq<Event>)
    returns (n: nat, m1: MState)
    requires Sound(w.cx.ret, g) && Simulates(w, g, m, fr, m.trace)
    requires s.Branch? && GenBranch(w.cx.sigs, g, s) == Ok(g') && Within(g', w.code)
    requires k <= |s.cases| && AllFalse(w.cx, fr, s.cases, k, m.trace) == Some((fr1, t1))
    ensures Go(w, m, n) == Live(m1) && m1.mem == m.mem
    ensures var h := CaseHead(w.cx.sigs, g, s, k); Sound(w.cx.ret, h) && Simulates(w, h, m1, fr1, t1)
    ensures var h := CaseHead(w.cx.sigs, g, s, k);
            GenCases(w.cx.sigs, h, s.cases[k..], |g.blocks| + 1).Ok?
            && Within(GenCases(w.cx.sigs, h, s.cases[k..], |g.blocks| + 1).value, w.code)
    ensures forall j | 0 <= j < n :: Searching(w.cx.sigs, g, s, k, Go(w, m, j))
  {
    hide ExecInstr, Wrap, GenBranch, GenCases, GenElse, Within, ScopesGrow, Distinct, Below, Head, Searching, Run, AllFalse;
    var p := BranchHasShape(w.cx.sigs, g, s, g');
    BranchFacts(w.cx.sigs, g, s, g', p);
    BranchWithin(w.cx.sigs, g, s, g', p, w.code);
    EnteringIsSearching(w, g, g', s, m, k);
    GrowsSound(w.cx.ret, g, p.g1, map[]);
    var ma := m.(blk := p.g1.cur, pc := 0);
    var k2, mb := ReachesCase(w, p.g1, p.g2, s.cases, p.exit, fr, ma, k, fr1, t1);
    GoOn(w, m, ma, 2, k2);
    n, m1 := 2 + k2, mb;
    forall j | 0 <= j < n
      ensures Searching(w.cx.sigs, g, s, k, Go(w, m, j))
    {
      if 2 <= j {
        GoOn(w, m, ma, 2, j - 2);
        TestingIsSearching(w, g, s, k, Go(w, m, j));
      }
    }
  }

  /** What follows the last false condition: the next one is evaluated in its own block. */
  lemma DecidingTest(w: World, g: Gen, g': Gen, s: Stmt, fr: Frame, m: MState, k: nat, fr1: Frame, t1: seq<Event>)
    returns (n: nat, m1: MState)
    requires Sound(w.cx.ret, g) && Simulates(w, g, m, fr, m.trace)
    requires s.Branch? && GenBranch(w.cx.sigs, g, s) == Ok(g') && Within(g', w.code)
    requires k < |s.cases| && AllFalse(w.cx, fr, s.cases, k, m.trace) == Some((fr1, t1))
    ensures Sound(w.cx.ret, CaseHead(w.cx.sigs, g, s, k))
    ensures match EvalCond(w.cx, fr1, s.cases[k].cond, t1)
            case CondHalt(o, t) => HaltsAs(w, m, n, o, t)
            case Truth(b, t) => b ==> Go(w, m, n) == Live(m1) && EntersBody(w, g, s, k, fr1, t, m1) && m1.mem == m.mem
    ensures forall j | 0 <= j < n :: Searching(w.cx.sigs, g, s, k, Go(w, m, j))
  {
    hide ExecInstr, Wrap, GenBranch, GenCase, GenCases, GenElse, Within, Distinct, Below, Head, Searching, Run, AllFalse, EvalCond,
         ResultHolds, Agree;
    var h := CaseHead(w.cx.sigs, g, s, k);
    var n1, ma := ReachesCaseHead(w, g, g', s, fr, m, k, fr1, t1);
    var h1 := CaseWithinChain(w, h, s.cases[k..], |g.blocks| + 1);
    var n2, mb := TestsInPlace(w, h, h1, s.cases[k], |g.blocks| + 1, fr1, ma);
    GoOn(w, m, ma, n1, n2);
    n, m1 := n1 + n2, mb;
    forall j | 0 <= j < n
      ensures Searching(w.cx.sigs, g, s, k, Go(w, m, j))
    {
      if n1 <= j {
        GoOn(w, m, ma, n1, j - n1);
        HeadIsSearching(w.cx.sigs, g, s, k, Go(w, m, j));
      }
    }
  }

  lemma HeadIsSearching(sigs: Sigs, g: Gen, s: Stmt, k: nat, c: Config)
    requires Ready(g) && s.Branch? && GenBranch(sigs, g, s).Ok? && k <= |s.cases|
    requires c.Live? ==> c.m.blk == CaseHead(sigs, g, s, k).cur
    ensures Searching(sigs, g, s, k, c)
  {
    hide GenCases, GenElse, Head, Elsewhere;
    HeadElsewhere(sigs, BranchHead(g), s.cases, |g.blocks| + 1, k, k);
  }

  lemma CaseWithinChain(w: World, g: Gen, cases: seq<Case>, exit: nat) returns (g1: Gen)
    requires Ready(g) && g.scopes != [] && cases != [] && GenCases(w.cx.sigs, g, cases, exit).Ok?
    requires Within(GenCases(w.cx.sigs, g, cases, exit).value, w.code)
    ensures GenCase(w.cx.sigs, g, cases[0], exit) == Ok(g1) && Ready(g1) && Within(g1, w.code)
    ensures GenCases(w.cx.sigs, g1, cases[1..], exit) == GenCases(w.cx.sigs, g, cases, exit)
  {
    hide GenCase, Within;
    g1 := GenCase(w.cx.sigs, g, cases[0], exit).value;
    ChainWithin(w, g, g1, GenCases(w.cx.sigs, g, cases, exit).value, cases, exit);
  }

  /** At the start of the body of case `k`, with the variables and events of the source. */
  predicate EntersBody(w: World, g: Gen, s: Stmt, k: nat, fr: Frame, t: seq<Event>, m: MState)
    requires Ready(g) && s.Branch? && GenBranch(w.cx.sigs, g, s).Ok? && k < |s.cases|
  {
    && m.blk == BodyOf(w.cx.sigs, g, s, k) && m.pc == 0 && m.trace == t
    && Agree(CaseHead(w.cx.sigs, g, s, k).scopes, fr, m.mem)
    && ResultHolds(CaseHead(w.cx.sigs, g, s, k), m.mem, w.cx.initial)
  }

  /** The body of the first case of a chain, from its first block to the block after the branch. */
  lemma FirstBodyRuns(w: World, g: Gen, g': Gen, cases: seq<Case>, exit: nat, fr: Frame, m: MState, fuel: nat)
    returns (n: nat)
    requires Sound(w.cx.ret, g) && cases != [] && GenCases(w.cx.sigs, g, cases, exit) == Ok(g') && Within(g', w.code)
    requires m.blk == |g.blocks| + 1 && m.pc == 0 && Agree(g.scopes, fr, m.mem) && ResultHolds(g, m.mem, w.cx.initial)
    ensures var r := ExecStmts(w.cx, fr, cases[0].body, m.trace, fuel);
            if r.Normal? then Go(w, m, n).Live? && StartsAt(Go(w, m, n).m, exit, r.trace) else Matches(w, g', m, r, fuel, n)
  {
    hide ExecInstr, Wrap, GenCase, GenCases, GenStmts, GenCondition, Within, ScopesGrow, Distinct, Below, Run, Agree, ExecStmts,
         ResultHolds, Simulates, Appends;
    var c, rest := cases[0], DeclsOfCases(cases[1..]);
    var g1 := CaseWithinChain(w, g, cases, exit);
    var p := CaseHasShape(w.cx.sigs, g, c, exit, g1);
    CaseGrows(w.cx.sigs, g, c, exit);
    CasesGrow(w.cx.sigs, g1, cases[1..], exit);
    CaseFacts(w.cx.sigs, g, c, exit, g1, p);
    assert |p.g1.blocks| == |g.blocks| by { SameCount(g, p.g1); }
    n := CaseBodySim(w, g, g1, c, exit, g', rest, p, fr, m, fuel);
  }

  lemma SameCount(g: Gen, g': Gen)
    requires Ready(g) && Appends(g, g')
    ensures |g'.blocks| == |g.blocks|
  {
  }

  predicate StartsAt(m: MState, b: nat, t: seq<Event>) { m.blk == b && m.pc == 0 && m.trace == t }

  /** From there the body does what the source says and, if it ends normally, the machine
      is at the block after the branch. */
  lemma BodyJoins(w: World, g: Gen, g': Gen, s: Stmt, fr: Frame, m: MState, k: nat, fuel: nat) returns (n: nat)
    requires Sound(w.cx.ret, g) && s.Branch? && GenBranch(w.cx.sigs, g, s) == Ok(g') && Within(g', w.code)
    requires k < |s.cases| && Sound(w.cx.ret, CaseHead(w.cx.sigs, g, s, k)) && EntersBody(w, g, s, k, fr, m.trace, m)
    ensures BodyDone(w, g', m, ExecStmts(w.cx, fr, s.cases[k].body, m.trace, fuel), fuel, n)
  {
    hide ExecInstr, Wrap, GenBranch, GenCases, GenElse, Within, ScopesGrow, Sound, Head, Run, Agree, ExecStmts, ResultHolds, Simulates;
    SoundScopes(w.cx.ret, g);
    var bp := BranchHasShape(w.cx.sigs, g, s, g');
    BranchFacts(w.cx.sigs, g, s, g', bp);
    BranchWithin(w.cx.sigs, g, s, g', bp, w.code);
    RestOfChain(w.cx.sigs, bp.g1, s.cases, bp.exit, k);
    n := FirstBodyRuns(w, CaseHead(w.cx.sigs, g, s, k), bp.g2, s.cases[k..], bp.exit, fr, m, fuel);
    var r := ExecStmts(w.cx, fr, s.cases[k].body, m.trace, fuel);
    if !r.Normal? {
      AbruptMatches(w, bp.g2, g', m, r, fuel, n);
    }
  }

  lemma SoundScopes(ret: Ty, g: Gen)
    requires Sound(ret, g)
    ensures Ready(g) && g.scopes != []
  {
  }

  predicate BodyDone(w: World, g': Gen, m: MState, r: Exec, fuel: nat, n: nat) {
    if r.Normal? then
      Go(w, m, n).Live? && StartsAt(Go(w, m, n).m, g'.cur, r.trace)
    else Matches(w, g', m, r, fuel, n)
  }

  lemma {:induction false} RestOfChain(sigs: Sigs, g: Gen, cases: seq<Case>, exit: nat, k: nat)
    requires Ready(g) && GenCases(sigs, g, cases, exit).Ok? && k <= |cases|
    ensures GenCases(sigs, Head(sigs, g, cases, exit, k), cases[k..], exit) == GenCases(sigs, g, cases, exit)
    decreases k
  {
    hide GenCase;
    if k == 0 {
      assert cases[0..] == cases;
    } else {
      RestOfChain(sigs, GenCase(sigs, g, cases[0], exit).value, cases[1..], exit, k - 1);
      assert cases[1..][k - 1..] == cases[k..];
    }
  }

  // ----- what becomes of a branch -----

  /** The first `k` conditions are false and the next is true: after exactly the events of
      these conditions the machine is at the start of the body of case `k`, without having
      been in any body or at a later condition.  The body then runs, once, and joins at the
      block after the branch unless it returns, halts or goes on for ever. */
  lemma FirstTrueRuns(w: World, g: Gen, g': Gen, s: Stmt, fr: Frame, m: MState, k: nat, fr1: Frame, t1: seq<Event>,
                      t2: seq<Event>, fuel: nat)
    returns (n: nat, m1: MState, n2: nat)
    requires Sound(w.cx.ret, g) && Simulates(w, g, m, fr, m.trace)
    requires s.Branch? && GenBranch(w.cx.sigs, g, s) == Ok(g') && Within(g', w.code)
    requires k < |s.cases| && AllFalse(w.cx, fr, s.cases, k, m.trace) == Some((fr1, t1))
    requires EvalCond(w.cx, fr1, s.cases[k].cond, t1) == Truth(true, t2)
    ensures Go(w, m, n) == Live(m1) && EntersBody(w, g, s, k, fr1, t2, m1) && m1.mem == m.mem
    ensures forall j | 0 <= j < n :: Searching(w.cx.sigs, g, s, k, Go(w, m, j))
    ensures BodyDone(w, g', m1, ExecStmts(w.cx, fr1, s.cases[k].body, t2, fuel), fuel, n2)
  {
    hide ExecInstr, Wrap, GenBranch, Within, Sound, Searching, Run, AllFalse, EvalCond, Simulates, BodyDone;
    n, m1 := DecidingTest(w, g, g', s, fr, m, k, fr1, t1);
    n2 := BodyJoins(w, g, g', s, fr1, m1, k, fuel);
  }

  /** All conditions are false: after their events the machine is where the else body is
      generated, without having been in the body of any case. */
  lemma NoneRuns(w: World, g: Gen, g': Gen, s: Stmt, fr: Frame, m: MState, fr1: Frame, t1: seq<Event>)
    returns (n: nat, m1: MState)
    requires Sound(w.cx.ret, g) && Simulates(w, g, m, fr, m.trace)
    requires s.Branch? && GenBranch(w.cx.sigs, g, s) == Ok(g') && Within(g', w.code)
    requires AllFalse(w.cx, fr, s.cases, |s.cases|, m.trace) == Some((fr1, t1))
    ensures Go(w, m, n) == Live(m1) && m1.mem == m.mem && Simulates(w, CaseHead(w.cx.sigs, g, s, |s.cases|), m1, fr1, t1)
    ensures GenElse(w.cx.sigs, CaseHead(w.cx.sigs, g, s, |s.cases|), s.els).Ok?
    ensures forall j | 0 <= j < n :: Searching(w.cx.sigs, g, s, |s.cases|, Go(w, m, j))
  {
    hide ExecInstr, Wrap, GenCases, GenElse, Within, Distinct, Below, Searching, Run, AllFalse, Head;
    n, m1 := ReachesCaseHead(w, g, g', s, fr, m, |s.cases|, fr1, t1);
    RestOfChain(w.cx.sigs, BranchHead(g), s.cases, |g.blocks| + 1, |s.cases|);
    NoCases(w.cx.sigs, CaseHead(w.cx.sigs, g, s, |s.cases|), s.cases[|s.cases|..], |g.blocks| + 1);
  }

  lemma NoCases(sigs: Sigs, g: Gen, cases: seq<Case>, exit: nat)
    requires Ready(g) && cases == []
    ensures GenCases(sigs, g, cases, exit) == Ok(g)
  {
  }

  /** A condition that halts ends the run there, before any body or later condition. */
  lemma HaltsAtCondition(w: World, g: Gen, g': Gen, s: Stmt, fr: Frame, m: MState, k: nat, fr1: Frame, t1: seq<Event>,
                         o: Outcome, t2: seq<Event>)
    returns (n: nat)
    requires Sound(w.cx.ret, g) && Simulates(w, g, m, fr, m.trace)
    requires s.Branch? && GenBranch(w.cx.sigs, g, s) == Ok(g') && Within(g', w.code)
    requires k < |s.cases| && AllFalse(w.cx, fr, s.cases, k, m.trace) == Some((fr1, t1))
    requires EvalCond(w.cx, fr1, s.cases[k].cond, t1) == CondHalt(o, t2)
    ensures HaltsAs(w, m, n, o, t2)
    ensures forall j | 0 <= j < n :: Searching(w.cx.sigs, g, s, k, Go(w, m, j))
  {
    hide ExecInstr, Wrap, GenBranch, Within, Sound, Searching, Run, AllFalse, EvalCond, Simulates, HaltsAs;
    var m1;
    n, m1 := DecidingTest(w, g, g', s, fr, m, k, fr1, t1);
  }

  /** There are no other possibilities. */
  lemma {:induction false} SomethingDecides(cx: Ctx, fr: Frame, cases: seq<Case>, t: seq<Event>) returns (k: nat)
    ensures k <= |cases| && AllFalse(cx, fr, cases, k, t).Some?
    ensures k < |cases| ==>
            var (fr1, t1) := AllFalse(cx, fr, cases, k, t).value;
            EvalCond(cx, fr1, cases[k].cond, t1).CondHalt? || EvalCond(cx, fr1, cases[k].cond, t1).b
    decreases cases
  {
    hide EvalCond, MarkMissing;
    k := 0;
    if cases != [] {
      var c := EvalCond(cx, fr, cases[0].cond, t);
      if c.Truth? && !c.b {
        var j := SomethingDecides(cx, MarkMissing(fr, DeclsIn(cases[0].body)), cases[1..], c.trace);
        k := j + 1;
      }
    }
  }
}
