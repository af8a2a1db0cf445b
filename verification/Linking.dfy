/** Whole programs: calls answered by running the function that is called.  A program all
    of whose functions are compiled does what the source program does. */
module Linking {
  import opened Ast
  import opened IR
  import opened Typing
  import opened Codegen
  import opened Source
  import opened Preservation
  import opened Allocation

  /** Functions that have a body, by name, and what each was compiled to. */
  datatype Program = Program(sigs: Sigs, source: map<string, Function>, code: map<string, Blocks>)

  /** Every function was generated from its source, and what its case bodies declare stays
      inside the cases. */
  ghost predicate Compiled(p: Program) {
    && p.code.Keys == p.source.Keys
    && forall fn | fn in p.source ::
      && Confined(p.source[fn]) && GenFunction(p.sigs, p.source[fn]).Ok?
      && GenFunction(p.sigs, p.source[fn]).value.blocks == p.code[fn]
  }

  // ----- answering a call -----

  /** How the end of a run that began with the events `t` looks to the caller. */
  function Answer(o: Outcome, t: seq<Event>, t': seq<Event>): (r: CallResult)
    ensures !r.CallDiverges?
  {
    var events := if |t| <= |t'| then t'[|t|..] else [];
    match o
    case Returned(Some(n)) => CallReturns(events, n)
    case Returned(None) => CallReturns(events, 0)
    case Aborted => CallAborts(events)
    case _ => CallUndefined(events)
  }

  /** The answer to a call when its source is run. */
  ghost function SourceAnswer(sigs: Sigs, env: Env, f: Function, args: seq<int>, t: seq<Event>): CallResult
    requires |args| == |f.params|
  {
    if o, t' :| SourceEnds(sigs, env, f, args, t, o, t') && !o.Diverged? then Answer(o, t, t')
    else CallDiverges(iset q: seq<Event> | SourceShows(sigs, env, f, args, t, t + q))
  }

  /** The answer to a call when its code is run. */
  ghost function CodeAnswer(env: Env, code: Blocks, args: seq<int>, t: seq<Event>): CallResult {
    if o, t' :| CodeEnds(code, env, args, t, o, t') && !o.Diverged? then Answer(o, t, t')
    else CallDiverges(iset q: seq<Event> | CodeShows(code, env, args, t, t + q))
  }

  lemma CodeEndsOnce(code: Blocks, env: Env, args: seq<int>, t: seq<Event>, o: Outcome, t': seq<Event>, o2: Outcome, t2: seq<Event>)
    requires CodeEnds(code, env, args, t, o, t') && CodeEnds(code, env, args, t, o2, t2)
    ensures o == o2 && t' == t2
  {
    hide Run;
    var a: nat :| Run(code, env, args, Live(Entry(t)), a) == Done(o, t');
    var b: nat :| Run(code, env, args, Live(Entry(t)), b) == Done(o2, t2);
    HaltsOneWay(code, env, args, Live(Entry(t)), a, b);
  }

  lemma EndsWith(code: Blocks, env: Env, args: seq<int>, t: seq<Event>, o: Outcome, t': seq<Event>)
    requires CodeEnds(code, env, args, t, o, t')
    ensures t <= t'
    ensures !o.Diverged? ==> CodeAnswer(env, code, args, t) == Answer(o, t, t')
  {
    hide Run, CodeEnds, Answer;
    EndKeepsTrace(code, env, args, t, o, t');
    if !o.Diverged? {
      forall o2, t2 | CodeEnds(code, env, args, t, o2, t2)
        ensures o2 == o && t2 == t'
      {
        CodeEndsOnce(code, env, args, t, o, t', o2, t2);
      }
    }
  }

  lemma EndKeepsTrace(code: Blocks, env: Env, args: seq<int>, t: seq<Event>, o: Outcome, t': seq<Event>)
    requires CodeEnds(code, env, args, t, o, t')
    ensures t <= t'
  {
    hide Run;
    var k: nat :| Run(code, env, args, Live(Entry(t)), k) == Done(o, t');
    RunKeepsTrace(code, env, args, Live(Entry(t)), k);
  }

  /** The caller is told how the callee ended, and its result if it has one. */
  predicate Tells(a: CallResult, o: Outcome) {
    match o
    case Returned(v) => a.CallReturns? && (v.Some? ==> a.n == v.value)
    case Aborted => a.CallAborts?
    case Diverged(_) => false
    case _ => a.CallUndefined?
  }

  /** The caller's events and then those of the answer are all the events of the callee's
      run, whether it ends or not; and the answer tells how it ended. */
  lemma AnswerIsComplete(code: Blocks, env: Env, args: seq<int>, t: seq<Event>)
    ensures var a := CodeAnswer(env, code, args, t);
            if a.CallDiverges? then
              forall q :: q in a.shown <==> CodeShows(code, env, args, t, t + q)
            else
              exists o: Outcome :: Tells(a, o) && CodeEnds(code, env, args, t, o, t + a.events)
  {
    hide CodeEnds, CodeShows;
    if o, t' :| CodeEnds(code, env, args, t, o, t') && !o.Diverged? {
      EndsWith(code, env, args, t, o, t');
      assert t + Answer(o, t, t').events == t';
      assert Tells(Answer(o, t, t'), o);
    }
  }

  /** Running the code of a function answers a call as running its source does. */
  lemma SameAnswer(sigs: Sigs, env: Env, f: Function, gf: Gen, args: seq<int>, t: seq<Event>)
    requires GenFunction(sigs, f) == Ok(gf) && Fits(f, args) && Confined(f)
    ensures SourceAnswer(sigs, env, f, args, t) == CodeAnswer(env, gf.blocks, args, t)
  {
    hide GenFunction, SourceEnds, CodeEnds, SourceShows, CodeShows, Answer, Run, RunFunction, Confined, Fits, CodeAnswer;
    FitsCount(f, args);
    DefiniteAllocation(sigs, env, f, args, t);
    CodePreservesMeaning(sigs, env, f, gf, args, t);
    if o, t' :| SourceEnds(sigs, env, f, args, t, o, t') && !o.Diverged? {
      EndsWith(gf.blocks, env, args, t, o, t');
      forall o2, t2 | CodeEnds(gf.blocks, env, args, t, o2, t2)
        ensures o2 == o && t2 == t'
      {
        CodeEndsOnce(gf.blocks, env, args, t, o, t', o2, t2);
      }
    } else {
      NeverEnds(env, gf.blocks, args, t);
    }
  }

  lemma NeverEnds(env: Env, code: Blocks, args: seq<int>, t: seq<Event>)
    requires forall o, t' :: CodeEnds(code, env, args, t, o, t') ==> o.Diverged?
    ensures CodeAnswer(env, code, args, t) == CallDiverges(iset q: seq<Event> | CodeShows(code, env, args, t, t + q))
  {
    hide CodeEnds, CodeShows;
  }

  lemma FitsCount(f: Function, args: seq<int>)
    requires Fits(f, args)
    ensures |args| == |f.params|
  {
  }

  // ----- the worlds of a program -----

  /** A call about which nothing is known. */
  const UNANSWERED := CallDiverges(iset{[]})

  /** The world of a program whose calls may be nested `depth` deep: a call to one of its
      functions runs the source of that function, in the world of the next lower depth;
      a call nested deeper is not answered; any other call is answered from outside. */
  ghost function SourceWorld(p: Program, outside: Env, depth: nat): Env
    decreases depth
  {
    if depth == 0 then
      Env(outside.fu, outside.input, (h: seq<Event>, fn: string, args: seq<int>) =>
        if fn in p.source && Fits(p.source[fn], args) then UNANSWERED else outside.call(h, fn, args))
    else
      var below := SourceWorld(p, outside, depth - 1);
      Env(outside.fu, outside.input, (h: seq<Event>, fn: string, args: seq<int>) =>
        if fn in p.source && Fits(p.source[fn], args)
        then SourceAnswer(p.sigs, below, p.source[fn], args, h + [EvCall(fn, args)])
        else outside.call(h, fn, args))
  }

  /** The same for the compiled program: every call runs code, and so do the calls in it. */
  ghost function CodeWorld(p: Program, outside: Env, depth: nat): Env
    requires p.code.Keys == p.source.Keys
    decreases depth
  {
    if depth == 0 then
      Env(outside.fu, outside.input, (h: seq<Event>, fn: string, args: seq<int>) =>
        if fn in p.source && Fits(p.source[fn], args) then UNANSWERED else outside.call(h, fn, args))
    else
      var below := CodeWorld(p, outside, depth - 1);
      Env(outside.fu, outside.input, (h: seq<Event>, fn: string, args: seq<int>) =>
        if fn in p.source && Fits(p.source[fn], args)
        then CodeAnswer(below, p.code[fn], args, h + [EvCall(fn, args)])
        else outside.call(h, fn, args))
  }

  /** Two worlds that answer alike. */
  ghost predicate SameWorld(a: Env, b: Env) {
    a.fu == b.fu && (forall h, fmt :: a.input(h, fmt) == b.input(h, fmt)) && SameCalls(a, b)
  }

  ghost predicate SameCalls(a: Env, b: Env) { forall h, fn, args :: a.call(h, fn, args) == b.call(h, fn, args) }

  lemma SameStep(code: Blocks, a: Env, b: Env, args: seq<int>, c: Config)
    requires SameWorld(a, b)
    ensures Step(code, a, args, c) == Step(code, b, args, c)
  {
    hide OperandValue, OperandValues, ApplyBin, ApplyCmp, ApplyCast, Wrap;
  }

  lemma {:induction false} SameRun(code: Blocks, a: Env, b: Env, args: seq<int>, c: Config, k: nat)
    requires SameWorld(a, b)
    ensures Run(code, a, args, c, k) == Run(code, b, args, c, k)
    decreases k
  {
    hide Step, SameWorld;
    if k > 0 {
      SameStep(code, a, b, args, c);
      SameRun(code, a, b, args, Step(code, a, args, c), k - 1);
    }
  }

  /** A run depends on the answers it gets and on nothing else of the world. */
  lemma SameRuns(code: Blocks, a: Env, b: Env, args: seq<int>, t: seq<Event>)
    requires SameWorld(a, b)
    ensures forall o, t' :: CodeEnds(code, a, args, t, o, t') <==> CodeEnds(code, b, args, t, o, t')
    ensures forall q :: CodeShows(code, a, args, t, q) <==> CodeShows(code, b, args, t, q)
    ensures CodeAnswer(a, code, args, t) == CodeAnswer(b, code, args, t)
  {
    hide Run, SameWorld, Shows, Answer;
    forall k: nat
      ensures Run(code, a, args, Live(Entry(t)), k) == Run(code, b, args, Live(Entry(t)), k)
    {
      SameRun(code, a, b, args, Live(Entry(t)), k);
    }
    SameAnswers(code, a, b, args, t);
  }

  lemma SameAnswers(code: Blocks, a: Env, b: Env, args: seq<int>, t: seq<Event>)
    requires forall o, t' :: CodeEnds(code, a, args, t, o, t') <==> CodeEnds(code, b, args, t, o, t')
    requires forall q :: CodeShows(code, a, args, t, q) <==> CodeShows(code, b, args, t, q)
    ensures CodeAnswer(a, code, args, t) == CodeAnswer(b, code, args, t)
  {
    hide CodeEnds, CodeShows, Answer;
    if o, t' :| CodeEnds(code, a, args, t, o, t') && !o.Diverged? {
      EndsWith(code, a, args, t, o, t');
      EndsWith(code, b, args, t, o, t');
    }
  }

  /** At every depth the compiled callees answer as the source ones. */
  lemma {:induction false} SameWorlds(p: Program, outside: Env, depth: nat)
    requires Compiled(p)
    ensures SameWorld(SourceWorld(p, outside, depth), CodeWorld(p, outside, depth))
    decreases depth
  {
    hide SourceAnswer, CodeAnswer, GenFunction, Confined, Fits;
    if depth > 0 {
      var s, c := SourceWorld(p, outside, depth - 1), CodeWorld(p, outside, depth - 1);
      SameWorlds(p, outside, depth - 1);
      forall h, fn, args | fn in p.source && Fits(p.source[fn], args)
        ensures SourceWorld(p, outside, depth).call(h, fn, args) == CodeWorld(p, outside, depth).call(h, fn, args)
      {
        var t := h + [EvCall(fn, args)];
        FitsCount(p.source[fn], args);
        SameAnswer(p.sigs, s, p.source[fn], GenFunction(p.sigs, p.source[fn]).value, args, t);
        SameRuns(p.code[fn], s, c, args, t);
      }
    }
  }

  /** Source in one world and code in another end alike and cause the same events. */
  ghost predicate Alike(sigs: Sigs, a: Env, f: Function, b: Env, code: Blocks, args: seq<int>, t: seq<Event>)
    requires |args| == |f.params|
  {
    && (forall o, t' :: SourceEnds(sigs, a, f, args, t, o, t') <==> CodeEnds(code, b, args, t, o, t'))
    && (forall q :: SourceShows(sigs, a, f, args, t, q) <==> CodeShows(code, b, args, t, q))
  }

  /** Whole programs, calls nested no deeper than `depth`: the compiled program ends as the
      source program does and causes the same events. */
  lemma ProgramPreservesMeaning(p: Program, outside: Env, depth: nat, fn: string, args: seq<int>, t: seq<Event>)
    requires Compiled(p) && fn in p.source && Fits(p.source[fn], args)
    ensures Alike(p.sigs, SourceWorld(p, outside, depth), p.source[fn], CodeWorld(p, outside, depth), p.code[fn], args, t)
  {
    hide SourceWorld, CodeWorld, SourceEnds, CodeEnds, SourceShows, CodeShows, CodeAnswer, GenFunction, Confined, Fits, Run,
         RunFunction, SameWorld;
    var s, c := SourceWorld(p, outside, depth), CodeWorld(p, outside, depth);
    FitsCount(p.source[fn], args);
    DefiniteAllocation(p.sigs, s, p.source[fn], args, t);
    CodePreservesMeaning(p.sigs, s, p.source[fn], GenFunction(p.sigs, p.source[fn]).value, args, t);
    SameWorlds(p, outside, depth);
    SameRuns(p.code[fn], s, c, args, t);
  }

  // ----- any depth -----

  /** An answer that says at least as much: the same, or, for a call that had not come back
      so far, one that shows what had been shown. */
  ghost predicate Refines(a: CallResult, b: CallResult) {
    if !a.CallDiverges? then a == b
    else
      match b
      case CallDiverges(shown) => forall q | q in a.shown :: q in shown
      case _ => forall q | q in a.shown :: q <= b.events
  }

  ghost predicate Deeper(a: Env, b: Env) {
    && a.fu == b.fu && (forall h, fmt :: a.input(h, fmt) == b.input(h, fmt))
    && forall h, fn, args :: Refines(a.call(h, fn, args), b.call(h, fn, args))
  }

  /** Either the step is the same, or it is a call that did not come back so far. */
  lemma DeeperStep(code: Blocks, a: Env, b: Env, args: seq<int>, c: Config)
    requires Deeper(a, b)
    ensures var r, r' := Step(code, a, args, c), Step(code, b, args, c);
            r == r' || (c.Live? && r.Done? && r.o.Diverged? && forall q :: Shows(r, q) ==> Shows(r', q))
  {
    hide OperandValue, OperandValues, ApplyBin, ApplyCmp, ApplyCast, Wrap, Shows, AfterCall, Refines;
    if c.Live? && c.m.blk < |code| && c.m.pc < |code[c.m.blk]| {
      var m, i := c.m, code[c.m.blk][c.m.pc];
      if i.CallFn? && OperandValues(args, m, i.args).Some? {
        var vs := OperandValues(args, m, i.args).value;
        DeeperCall(m, i.dst, i.fn, i.ret, vs, a.call(m.trace, i.fn, vs), b.call(m.trace, i.fn, vs));
      }
    }
  }

  lemma DeeperCall(m: MState, dst: nat, fn: string, ret: Ty, vs: seq<int>, a: CallResult, b: CallResult)
    requires Refines(a, b)
    ensures var r, r' := AfterCall(m, dst, fn, ret, vs, a), AfterCall(m, dst, fn, ret, vs, b);
            r == r' || (r.Done? && r.o.Diverged? && forall q :: Shows(r, q) ==> Shows(r', q))
  {
  }

  /** A run in a deeper world ends in the same way, unless it was waiting for a call; and it
      shows at least the same events. */
  lemma {:induction false} DeeperRun(code: Blocks, a: Env, b: Env, args: seq<int>, c: Config, k: nat)
    requires Deeper(a, b)
    ensures var r, r' := Run(code, a, args, c, k), Run(code, b, args, c, k);
            (r.Live? || !r.o.Diverged? ==> r == r') && forall q :: Shows(r, q) ==> Shows(r', q)
    decreases k
  {
    hide Step, Deeper, Shows;
    if k > 0 {
      var c1, c2 := Step(code, a, args, c), Step(code, b, args, c);
      DeeperStep(code, a, b, args, c);
      if c1 == c2 {
        DeeperRun(code, a, b, args, c1, k - 1);
      } else {
        RunDone(code, a, args, c1, k - 1);
        forall q | Shows(c1, q)
          ensures Shows(Run(code, b, args, c2, k - 1), q)
        {
          assert Run(code, b, args, c2, 0) == c2;
          ShowsLater(code, b, args, c2, 0, k - 1, q);
        }
      }
    }
  }

  lemma DeeperAnswer(code: Blocks, a: Env, b: Env, args: seq<int>, t: seq<Event>)
    requires Deeper(a, b)
    ensures forall o, t' :: CodeEnds(code, a, args, t, o, t') && !o.Diverged? ==> CodeEnds(code, b, args, t, o, t')
    ensures forall q :: CodeShows(code, a, args, t, q) ==> CodeShows(code, b, args, t, q)
    ensures Refines(CodeAnswer(a, code, args, t), CodeAnswer(b, code, args, t))
  {
    hide Run, Deeper, Shows, CodeAnswer, Refines;
    forall k: nat
      ensures var r, r' := Run(code, a, args, Live(Entry(t)), k), Run(code, b, args, Live(Entry(t)), k);
              (r.Live? || !r.o.Diverged? ==> r == r') && forall q :: Shows(r, q) ==> Shows(r', q)
    {
      DeeperRun(code, a, b, args, Live(Entry(t)), k);
    }
    AnswersRefine(code, a, b, args, t);
  }

  lemma AnswersRefine(code: Blocks, a: Env, b: Env, args: seq<int>, t: seq<Event>)
    requires forall o, t' :: CodeEnds(code, a, args, t, o, t') && !o.Diverged? ==> CodeEnds(code, b, args, t, o, t')
    requires forall q :: CodeShows(code, a, args, t, q) ==> CodeShows(code, b, args, t, q)
    ensures Refines(CodeAnswer(a, code, args, t), CodeAnswer(b, code, args, t))
  {
    hide CodeEnds, CodeShows, Answer;
    if o, t' :| CodeEnds(code, a, args, t, o, t') && !o.Diverged? {
      EndsWith(code, a, args, t, o, t');
      EndsWith(code, b, args, t, o, t');
    } else if o, t' :| CodeEnds(code, b, args, t, o, t') && !o.Diverged? {
      NeverEnds(a, code, args, t);
      EndsWith(code, b, args, t, o, t');
      forall q | CodeShows(code, b, args, t, t + q)
        ensures q <= Answer(o, t, t').events
      {
        ShownByEnd(code, b, args, t, o, t', q);
      }
    } else {
      NeverEnds(a, code, args, t);
      NeverEnds(b, code, args, t);
    }
  }

  lemma ShownByEnd(code: Blocks, env: Env, args: seq<int>, t: seq<Event>, o: Outcome, t': seq<Event>, q: seq<Event>)
    requires CodeEnds(code, env, args, t, o, t') && !o.Diverged? && CodeShows(code, env, args, t, t + q)
    ensures q <= Answer(o, t, t').events
  {
    hide Run;
    var a: nat :| Shows(Run(code, env, args, Live(Entry(t)), a), t + q);
    var b: nat :| Run(code, env, args, Live(Entry(t)), b) == Done(o, t');
    ShowsLater(code, env, args, Live(Entry(t)), a, b, t + q);
    assert t + q <= t' && (t + q)[|t|..] == q && Answer(o, t, t').events == t'[|t|..];
  }

  lemma {:induction false} DeeperWorlds(p: Program, outside: Env, depth: nat)
    requires p.code.Keys == p.source.Keys
    ensures Deeper(CodeWorld(p, outside, depth), CodeWorld(p, outside, depth + 1))
    decreases depth
  {
    hide CodeAnswer, Fits, Refines;
    forall r ensures Refines(r, r) { RefinesItself(r); }
    var a, b := CodeWorld(p, outside, depth), CodeWorld(p, outside, depth + 1);
    if depth > 0 {
      DeeperWorlds(p, outside, depth - 1);
    }
    forall h, fn, args | fn in p.source && Fits(p.source[fn], args)
      ensures Refines(a.call(h, fn, args), b.call(h, fn, args))
    {
      var t, code := h + [EvCall(fn, args)], p.code[fn];
      if depth == 0 {
        UnansweredRefined(a, code, args, t);
      } else {
        DeeperAnswer(code, CodeWorld(p, outside, depth - 1), a, args, t);
      }
    }
  }

  lemma RefinesItself(r: CallResult)
    ensures Refines(r, r)
  {
  }

  lemma UnansweredRefined(env: Env, code: Blocks, args: seq<int>, t: seq<Event>)
    ensures Refines(UNANSWERED, CodeAnswer(env, code, args, t))
  {
    hide ExecInstr;
    var c := CodeAnswer(env, code, args, t);
    if c.CallDiverges? {
      assert Run(code, env, args, Live(Entry(t)), 0) == Live(Entry(t));
      assert Shows(Live(Entry(t)), t + []);
      assert CodeShows(code, env, args, t, t + []);
    }
  }

  /** The source program ends at some depth of calls, and no call is left waiting. */
  ghost predicate SourceProgramEnds(p: Program, outside: Env, fn: string, args: seq<int>, t: seq<Event>, o: Outcome, t': seq<Event>)
    requires fn in p.source && Fits(p.source[fn], args)
  {
    !o.Diverged? && exists depth: nat :: SourceEnds(p.sigs, SourceWorld(p, outside, depth), p.source[fn], args, t, o, t')
  }

  ghost predicate CodeProgramEnds(p: Program, outside: Env, fn: string, args: seq<int>, t: seq<Event>, o: Outcome, t': seq<Event>)
    requires p.code.Keys == p.source.Keys && fn in p.source
  {
    !o.Diverged? && exists depth: nat :: CodeEnds(p.code[fn], CodeWorld(p, outside, depth), args, t, o, t')
  }

  ghost predicate SourceProgramShows(p: Program, outside: Env, fn: string, args: seq<int>, t: seq<Event>, q: seq<Event>)
    requires fn in p.source && Fits(p.source[fn], args)
  {
    exists depth: nat :: SourceShows(p.sigs, SourceWorld(p, outside, depth), p.source[fn], args, t, q)
  }

  ghost predicate CodeProgramShows(p: Program, outside: Env, fn: string, args: seq<int>, t: seq<Event>, q: seq<Event>)
    requires p.code.Keys == p.source.Keys && fn in p.source
  {
    exists depth: nat :: CodeShows(p.code[fn], CodeWorld(p, outside, depth), args, t, q)
  }

  /** Source and code of a program end alike and cause the same events. */
  ghost predicate MeansTheSame(p: Program, outside: Env, fn: string, args: seq<int>, t: seq<Event>)
    requires p.code.Keys == p.source.Keys && fn in p.source && Fits(p.source[fn], args)
  {
    && (forall o, t' :: SourceProgramEnds(p, outside, fn, args, t, o, t') <==> CodeProgramEnds(p, outside, fn, args, t, o, t'))
    && (forall q :: SourceProgramShows(p, outside, fn, args, t, q) <==> CodeProgramShows(p, outside, fn, args, t, q))
  }

  lemma {:induction false} EndsDeeper(p: Program, outside: Env, fn: string, args: seq<int>, t: seq<Event>, a: nat, b: nat)
    requires p.code.Keys == p.source.Keys && fn in p.source && a <= b
    ensures var code := p.code[fn];
            && (forall o, t' :: CodeEnds(code, CodeWorld(p, outside, a), args, t, o, t') && !o.Diverged?
                  ==> CodeEnds(code, CodeWorld(p, outside, b), args, t, o, t'))
            && (forall q :: CodeShows(code, CodeWorld(p, outside, a), args, t, q) ==> CodeShows(code, CodeWorld(p, outside, b), args, t, q))
    decreases b
  {
    hide CodeEnds, CodeShows, CodeWorld, Deeper;
    if a < b {
      EndsDeeper(p, outside, fn, args, t, a, b - 1);
      DeeperWorlds(p, outside, b - 1);
      DeeperAnswer(p.code[fn], CodeWorld(p, outside, b - 1), CodeWorld(p, outside, b), args, t);
    }
  }

  /** However deep calls are allowed to nest, a program that ends does so in one way: the
      depth at which it is run is not part of its meaning. */
  lemma EndsOneWay(p: Program, outside: Env, fn: string, args: seq<int>, t: seq<Event>,
                   o: Outcome, t': seq<Event>, o2: Outcome, t2: seq<Event>)
    requires p.code.Keys == p.source.Keys && fn in p.source
    requires CodeProgramEnds(p, outside, fn, args, t, o, t') && CodeProgramEnds(p, outside, fn, args, t, o2, t2)
    ensures o == o2 && t' == t2
  {
    hide CodeEnds, CodeWorld;
    var code := p.code[fn];
    var a: nat :| CodeEnds(code, CodeWorld(p, outside, a), args, t, o, t');
    var b: nat :| CodeEnds(code, CodeWorld(p, outside, b), args, t, o2, t2);
    var d := if a <= b then b else a;
    EndsDeeper(p, outside, fn, args, t, a, d);
    EndsDeeper(p, outside, fn, args, t, b, d);
    CodeEndsOnce(code, CodeWorld(p, outside, d), args, t, o, t', o2, t2);
  }

  /** Whole programs without a bound on the depth of their calls: source and code end alike,
      and whether they end or not, recursing for ever included, cause the same events. */
  lemma CompiledProgramIsCorrect(p: Program, outside: Env, fn: string, args: seq<int>, t: seq<Event>)
    requires Compiled(p) && fn in p.source && Fits(p.source[fn], args)
    ensures MeansTheSame(p, outside, fn, args, t)
  {
    hide SourceWorld, CodeWorld, SourceEnds, CodeEnds, SourceShows, CodeShows, GenFunction, Confined, Fits;
    FitsCount(p.source[fn], args);
    forall depth: nat
      ensures Alike(p.sigs, SourceWorld(p, outside, depth), p.source[fn], CodeWorld(p, outside, depth), p.code[fn], args, t)
    {
      ProgramPreservesMeaning(p, outside, depth, fn, args, t);
    }
  }
}
