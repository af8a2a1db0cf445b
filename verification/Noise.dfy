/** Articles, commas and colons that mean nothing. */
module Noise {
  import opened Ast
  import opened Grammar
  import opened Parsing
  import opened Completeness
  import opened Sequences
  import Soundness

  // ----- removing them -----

  function QuietTerm(e: Term): Term
    decreases e
  {
    match e
    case Var(v) => Var(v.(article := false))
    case Invoke(fn, args) => Invoke(fn, QuietArgs(args))
    case Infix(op, l, r) => Infix(op, QuietTerm(l), QuietTerm(r))
    case _ => e
  }

  function QuietArgs(args: seq<Term>): seq<Term>
    decreases args
  {
    if args == [] then [] else [QuietTerm(args[0])] + QuietArgs(args[1..])
  }

  function QuietMaybe(e: Option<Term>): Option<Term> { match e case None => None case Some(x) => Some(QuietTerm(x)) }

  function QuietSentence(s: Sentence): Sentence
    decreases s, 0
  {
    match s
    case Asserting(e) => Asserting(QuietTerm(e))
    case Reading(v) => Reading(v.(article := false))
    case Aborting => Aborting
    case Branching(v, cases, o) => Branching(v.(article := false), QuietCases(cases), QuietOtherwise(o))
    case Declaring(v, ty, init) => Declaring(v.(article := false), ty, QuietMaybe(init))
    case Looping(body, cond) => Looping(QuietLines(body), QuietTerm(cond))
    case Returning(value) => Returning(QuietMaybe(value))
    case Printing(e) => Printing(QuietTerm(e))
    case Assigning(v, e) => Assigning(v.(article := false), QuietTerm(e))
    case Calling(fn, args) => Calling(fn, QuietArgs(args))
  }

  function QuietLine(l: Line): Line
    decreases l, 1
  {
    Line(0, QuietSentence(l.s))
  }

  function QuietLines(ls: seq<Line>): seq<Line>
    decreases ls
  {
    if ls == [] then [] else [QuietLine(ls[0])] + QuietLines(ls[1..])
  }

  function QuietText(t: Text): Text
    decreases t
  {
    Text(QuietLines(t.lines), 0)
  }

  function QuietCase(c: Alternative): Alternative
    decreases c
  {
    Alternative(c.op, QuietTerm(c.rhs), false, QuietText(c.body))
  }

  function QuietCases(cs: seq<Alternative>): seq<Alternative>
    decreases cs
  {
    if cs == [] then [] else [QuietCase(cs[0])] + QuietCases(cs[1..])
  }

  function QuietOtherwise(o: Otherwise): Otherwise
    decreases o
  {
    match o case Nothing => Nothing case Otherwise(_, body) => Otherwise(false, QuietText(body))
  }

  function QuietParams(ps: seq<ParamText>): seq<ParamText> {
    if ps == [] then [] else [ps[0].(v := ps[0].v.(article := false))] + QuietParams(ps[1..])
  }

  function QuietFunction(f: FunctionText): FunctionText {
    FunctionText(f.ret, f.name, QuietParams(f.params), QuietText(f.body))
  }

  function QuietFunctions(fs: seq<FunctionText>): seq<FunctionText> {
    if fs == [] then [] else [QuietFunction(fs[0])] + QuietFunctions(fs[1..])
  }

  function QuietModule(m: ModuleText): ModuleText {
    ModuleText(QuietFunctions(m.before),
               match m.entry case None => None case Some(t) => Some(QuietText(t)),
               QuietFunctions(m.after))
  }

  // ----- changes neither what is accepted nor the tree -----

  lemma {:induction false} TermQuiet(e: Term)
    ensures TermAst(QuietTerm(e)) == TermAst(e) && (Canonical(QuietTerm(e)) <==> Canonical(e))
    ensures (QuietTerm(e).Infix? <==> e.Infix?) && (e.Infix? ==> QuietTerm(e).op == e.op)
    decreases e
  {
    match e
    case Invoke(_, args) => ArgsQuiet(args);
    case Infix(_, l, r) =>
      TermQuiet(l);
      TermQuiet(r);
    case _ =>
  }

  lemma {:induction false} ArgsQuiet(args: seq<Term>)
    ensures ArgsAst(QuietArgs(args)) == ArgsAst(args) && (AllCanonical(QuietArgs(args)) <==> AllCanonical(args))
    decreases args
  {
    if args != [] {
      TermQuiet(args[0]);
      ArgsQuiet(args[1..]);
    }
  }

  lemma MaybeQuiet(e: Option<Term>)
    ensures MaybeTermAst(QuietMaybe(e)) == MaybeTermAst(e) && (MaybeCanonical(QuietMaybe(e)) <==> MaybeCanonical(e))
  {
    if e.Some? {
      TermQuiet(e.value);
    }
  }

  lemma {:induction false} SentenceQuiet(s: Sentence)
    ensures SentenceAst(QuietSentence(s)) == SentenceAst(s) && (CanonicalSentence(QuietSentence(s)) <==> CanonicalSentence(s))
    decreases s, 0
  {
    hide QuietTerm, QuietArgs, QuietMaybe, QuietLines, QuietCases, QuietOtherwise, TermAst, ArgsAst, MaybeTermAst, LinesAst, CasesAst,
         OtherwiseAst, Canonical, AllCanonical, MaybeCanonical, CanonicalLines, CanonicalCases, CanonicalOtherwise;
    match s
    case Asserting(e) => TermQuiet(e);
    case Branching(v, cases, o) =>
      CasesQuiet(v.id, cases);
      OtherwiseQuiet(o);
    case Declaring(_, _, init) => MaybeQuiet(init);
    case Looping(body, cond) =>
      LinesQuiet(body);
      TermQuiet(cond);
    case Returning(value) => MaybeQuiet(value);
    case Printing(e) => TermQuiet(e);
    case Assigning(_, e) => TermQuiet(e);
    case Calling(_, args) => ArgsQuiet(args);
    case _ =>
  }

  lemma {:induction false} LineQuiet(l: Line)
    ensures LineAst(QuietLine(l)) == LineAst(l) && (CanonicalLine(QuietLine(l)) <==> CanonicalLine(l))
    decreases l, 1
  {
    SentenceQuiet(l.s);
  }

  lemma {:induction false} LinesQuiet(ls: seq<Line>)
    ensures LinesAst(QuietLines(ls)) == LinesAst(ls) && (CanonicalLines(QuietLines(ls)) <==> CanonicalLines(ls))
    decreases ls
  {
    hide QuietLine, LineAst, CanonicalLine;
    if ls != [] {
      LineQuiet(ls[0]);
      LinesQuiet(ls[1..]);
    }
  }

  lemma {:induction false} TextQuiet(t: Text)
    ensures LinesAst(QuietText(t).lines) == LinesAst(t.lines) && (CanonicalText(QuietText(t)) <==> CanonicalText(t))
    decreases t
  {
    LinesQuiet(t.lines);
  }

  lemma {:induction false} CaseQuiet(lead: string, c: Alternative)
    ensures CaseAst(lead, QuietCase(c)) == CaseAst(lead, c) && (CanonicalCase(QuietCase(c)) <==> CanonicalCase(c))
    decreases c
  {
    hide QuietTerm, QuietText, TermAst, LinesAst, Canonical, CanonicalText;
    TermQuiet(c.rhs);
    TextQuiet(c.body);
  }

  lemma {:induction false} CasesQuiet(lead: string, cs: seq<Alternative>)
    ensures CasesAst(lead, QuietCases(cs)) == CasesAst(lead, cs) && |QuietCases(cs)| == |cs|
    ensures CanonicalCases(QuietCases(cs)) <==> CanonicalCases(cs)
    decreases cs
  {
    hide QuietCase, CaseAst, CanonicalCase;
    if cs != [] {
      CaseQuiet(lead, cs[0]);
      CasesQuiet(lead, cs[1..]);
    }
  }

  lemma {:induction false} OtherwiseQuiet(o: Otherwise)
    ensures OtherwiseAst(QuietOtherwise(o)) == OtherwiseAst(o) && (CanonicalOtherwise(QuietOtherwise(o)) <==> CanonicalOtherwise(o))
    decreases o
  {
    if o.Otherwise? {
      TextQuiet(o.body);
    }
  }

  lemma {:induction false} ParamsQuiet(ps: seq<ParamText>)
    ensures ParamsAst(QuietParams(ps)) == ParamsAst(ps)
  {
    if ps != [] {
      ParamsQuiet(ps[1..]);
    }
  }

  lemma FunctionQuiet(f: FunctionText)
    ensures FunctionAst(QuietFunction(f)) == FunctionAst(f) && (CanonicalText(QuietFunction(f).body) <==> CanonicalText(f.body))
  {
    ParamsQuiet(f.params);
    TextQuiet(f.body);
  }

  lemma {:induction false} FunctionsQuiet(fs: seq<FunctionText>)
    ensures FunctionsAst(QuietFunctions(fs)) == FunctionsAst(fs) && |QuietFunctions(fs)| == |fs|
    ensures CanonicalFunctions(QuietFunctions(fs)) <==> CanonicalFunctions(fs)
  {
    hide QuietFunction, FunctionAst, CanonicalText;
    if fs != [] {
      FunctionQuiet(fs[0]);
      FunctionsQuiet(fs[1..]);
      assert fs == [fs[0]] + fs[1..];
    }
  }

  lemma {:induction false} FunctionsJoin(a: seq<FunctionText>, b: seq<FunctionText>)
    ensures QuietFunctions(a + b) == QuietFunctions(a) + QuietFunctions(b)
  {
    hide QuietFunction;
    if a == [] {
      assert a + b == b;
    } else {
      FunctionsJoin(a[1..], b);
      assert (a + b)[1..] == a[1..] + b;
      Assoc([QuietFunction(a[0])], QuietFunctions(a[1..]), QuietFunctions(b));
    }
  }

  lemma ModuleQuiet(m: ModuleText)
    ensures ModuleAst(QuietModule(m)) == ModuleAst(m) && (CanonicalModule(QuietModule(m)) <==> CanonicalModule(m))
  {
    hide QuietFunctions, QuietText, FunctionsAst, LinesAst, CanonicalFunctions, CanonicalText;
    FunctionsQuiet(m.before);
    FunctionsQuiet(m.after);
    FunctionsQuiet(m.before + m.after);
    FunctionsJoin(m.before, m.after);
    if m.entry.Some? {
      TextQuiet(m.entry.value);
    }
  }

  /** Adding or removing commas before statements or at the end of bodies, articles before
      variables and colons after conditions or `else`, in any number of places: the one
      stream is accepted exactly when the other is, and with the same tree. */
  lemma NoiseInsensitive(m: ModuleText, m': ModuleText)
    requires QuietModule(m) == QuietModule(m') && Stream(ModuleTokens(m)) && ParseModule(ModuleTokens(m)) == Ok(m, [])
    ensures Stream(ModuleTokens(m')) && ParseModule(ModuleTokens(m')) == Ok(m', []) && ModuleAst(m') == ModuleAst(m)
  {
    hide ParseModule, ModuleTokens, QuietModule, ModuleAst, CanonicalModule;
    ModuleQuiet(m);
    ModuleQuiet(m');
    AcceptsExactly(ModuleTokens(m), m);
    ModuleComplete(m');
  }

  /** The one place where a comma is not noise: right before a loop condition. */
  lemma NoCommaBeforeLoopCondition(ls: seq<Line>, n: nat, rest: seq<Token>)
    requires CanonicalLines(ls) && n > 0 && Stream(rest) && rest[0].LOOP_CONDITION?
    ensures var s := LinesTokens(ls) + (Commas(n) + rest); Opens(s) && ParseLoopBody(s) == Err(ExpectedStatement)
    decreases ls
  {
    var s2 := Commas(n) + rest;
    if ls == [] {
      CommasThenCondition(n, rest);
      assert [] + s2 == s2;
    } else {
      hide MaybeLine, LineTokens, CanonicalLine, Commas, Opens, MaybeSentence;
      var s1 := LinesTokens(ls[1..]) + s2;
      NoCommaBeforeLoopCondition(ls[1..], n, rest);
      LineComplete(ls[0], s1);
      Assoc(LineTokens(ls[0]), LinesTokens(ls[1..]), s2);
      OpensStream(LineTokens(ls[0]) + s1);
    }
  }

  lemma CommasThenCondition(n: nat, rest: seq<Token>)
    requires n > 0 && Stream(rest) && rest[0].LOOP_CONDITION?
    ensures var s := Commas(n) + rest; Opens(s) && ParseLoopBody(s) == Err(ExpectedStatement)
  {
    hide MaybeLine, MaybeSentence;
    NothingHere(rest);
    AfterCommas(n, rest);
  }

  lemma OpensStream(s: seq<Token>)
    requires Opens(s)
    ensures Stream(s)
  {
  }
}
