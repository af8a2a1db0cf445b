/** The three things the front end offers, on fresh objects, and what they amount to. */
module Frontend {
  import opened Ast
  import opened IR
  import opened Grammar
  import opened Typing
  import opened Codegen
  import opened Modules
  import Acceptance
  import Allocation
  import Completeness
  import Decoding
  import IRGenerator
  import Linking
  import Lowering
  import Parser
  import Parsing
  import Preservation
  import Printing
  import Registers
  import AstPrinter
  import RoundTrip
  import Soundness
  import StaticRules
  import WellFormed

  /** Parsing a stream succeeds exactly when it spells a canonical module, and then gives
      the tree of that module, which is one that can be written down again. */
  method Parse(tokens: seq<Token>) returns (r: Parser.Answer<Module>)
    requires Stream(tokens)
    ensures r.Yes? <==> exists m :: CanonicalModule(m) && tokens == ModuleTokens(m)
    ensures forall m | CanonicalModule(m) && tokens == ModuleTokens(m) :: r == Parser.Yes(ModuleAst(m))
    ensures r.Yes? ==> RoundTrip.ShapedModule(r.value)
  {
    hide Parsing.ParseModule, ModuleTokens, CanonicalModule, ModuleAst, RoundTrip.ShapedModule;
    var parser := new Parser.Parser(tokens);
    r := parser.ReadModule();
    var spec := Parsing.ParseModule(tokens);
    if spec.Ok? {
      Soundness.ModuleSound(tokens, spec.value, spec.rest);
      RoundTrip.ParsedIsShaped(tokens, r.value);
    }
    forall m | CanonicalModule(m) && tokens == ModuleTokens(m)
      ensures r == Parser.Yes(ModuleAst(m))
    {
      Completeness.ModuleComplete(m);
    }
  }

  /** What is generated for a module, if it has no fault: one item for each function, in the
      order of the module, and last one for the entry point.  Each has the name, the types
      and the code of its own function; the whole program of generated functions does what
      the source program does if no name declared in a case is used outside it.  A module
      with a fault is refused with the first one. */
  method GenerateIR(m: Module) returns (r: Result<seq<Item>>)
    ensures r == GenModule(m)
    ensures r.Ok? ==> |r.value| == |m.functions| + if m.entry.Some? then 1 else 0
    ensures r.Ok? ==> forall i | 0 <= i < |m.functions| :: Delivers(Declared(m), m.functions[i], r.value[i])
    ensures r.Ok? && m.entry.Some? ==> Delivers(Declared(m), m.entry.value, r.value[|m.functions|])
    ensures r.Ok? ==> InForce(Declared(m), m)
    ensures r.Ok? ==> var p := ProgramOf(m, r.value); LinksAll(m, r.value, p) && (AllConfined(m) ==> FaithfulProgram(p))
    ensures Acceptance.Error(r) == StaticRules.ModuleFault(m)
  {
    hide DeclareAll, DefineAll, SigOf, Delivers, InForce, AllConfined, FaithfulProgram, LinksAll, ProgramOf, Declared;
    hide StaticRules.ModuleFault;
    var generator := new IRGenerator.IRGenerator();
    r := generator.VisitModule(m);
    Acceptance.ModuleAccepted(m);
    if r.Ok? {
      ItemsDelivered(m, r.value);
      SignaturesInForce(m);
      ItemsLink(m, r.value);
    }
  }

  /** The signatures of the functions of a module and of the builtins. */
  function Declared(m: Module): Sigs {
    match DeclareAll(BUILTINS, AllFunctions(m)) case Ok(sigs) => sigs case Err(_) => map[]
  }

  /** The item is what a module should deliver for the function. */
  ghost predicate Delivers(sigs: Sigs, f: Function, item: Item) {
    && Named(f, item.name)
    && Lowering.LoweredSig(f, item.sig)
    && (item.def.Prototype? <==> f.body == [])
    && (item.def.Defined? ==> ShapelyCode(item.def) && FaithfulCode(sigs, f, item.def.blocks))
  }

  predicate Contains(m: Module, f: Function) { f in m.functions || m.entry == Some(f) }

  predicate Named(f: Function, x: string) { x == if f.name == "" then "main" else f.name }

  /** Every function can be called by its name. */
  ghost predicate Callable(sigs: Sigs, m: Module) {
    forall f, x | Contains(m, f) && Named(f, x) :: x in sigs && Lowering.LoweredSig(f, sigs[x])
  }

  predicate FromLibrary(sigs: Sigs, x: string)
    requires x in sigs
  {
    match x
    case "abort" => sigs[x] == Sig(Void, [])
    case "printf" => sigs[x] == Sig(I32, [Ptr])
    case "scanf" => sigs[x] == Sig(I32, [Ptr])
    case _ => false
  }

  /** Every function can be called by its name, and nothing else but the library can. */
  ghost predicate InForce(sigs: Sigs, m: Module) {
    && Callable(sigs, m)
    && (forall x | x in sigs :: FromLibrary(sigs, x) || exists f :: Contains(m, f) && Named(f, x))
  }

  /** The functions of a module and the entry point, by position. */
  lemma Positions(m: Module)
    ensures var fs, n := AllFunctions(m), |m.functions|;
            && |fs| == n + (if m.entry.Some? then 1 else 0)
            && (forall i | 0 <= i < n :: fs[i] == m.functions[i]) && (m.entry.Some? ==> fs[n] == m.entry.value)
            && forall f :: f in fs <==> Contains(m, f)
  {
    var fs, n := AllFunctions(m), |m.functions|;
    forall f: Function
      ensures f in fs <==> Contains(m, f)
    {
      if m.entry.Some? {
        assert fs == m.functions + [m.entry.value];
      } else {
        assert fs == m.functions;
      }
    }
  }

  lemma ItemsDelivered(m: Module, items: seq<Item>)
    requires GenModule(m) == Ok(items)
    ensures |items| == |m.functions| + if m.entry.Some? then 1 else 0
    ensures forall i | 0 <= i < |m.functions| :: Delivers(Declared(m), m.functions[i], items[i])
    ensures m.entry.Some? ==> Delivers(Declared(m), m.entry.value, items[|m.functions|])
  {
    hide AllFunctions, GenModule, Declared, Delivers;
    Positions(m);
    ItemsOf(m, items);
    assert forall i | 0 <= i < |m.functions| :: AllFunctions(m)[i] == m.functions[i];
  }

  lemma SignaturesInForce(m: Module)
    requires GenModule(m).Ok?
    ensures InForce(Declared(m), m)
  {
    hide GenModule, Declared, FromLibrary, Contains, Named, Callable;
    AllCallable(m);
    forall x | x in Declared(m) && !FromLibrary(Declared(m), x)
      ensures exists f :: Contains(m, f) && Named(f, x)
    {
      Caller(m, x);
    }
  }

  lemma AllCallable(m: Module)
    requires GenModule(m).Ok?
    ensures Callable(Declared(m), m)
  {
    hide DefineAll, DeclareAll, NewNames, AllFunctions, SigOf, Lowering.LoweredSig;
    Positions(m);
    DeclaresEach(BUILTINS, AllFunctions(m));
    forall f, x | Contains(m, f) && Named(f, x)
      ensures x in Declared(m) && Lowering.LoweredSig(f, Declared(m)[x])
    {
      Lowering.LoweredSignature(f);
    }
  }

  lemma Caller(m: Module, x: string)
    requires GenModule(m).Ok? && x in Declared(m) && !FromLibrary(Declared(m), x)
    ensures exists f :: Contains(m, f) && Named(f, x)
  {
    hide DefineAll, DeclareAll, NewNames, AllFunctions, SigOf;
    Positions(m);
    DeclaresEach(BUILTINS, AllFunctions(m));
    var i :| 0 <= i < |AllFunctions(m)| && FunctionName(AllFunctions(m)[i]) == x;
    assert Contains(m, AllFunctions(m)[i]) && Named(AllFunctions(m)[i], x);
  }

  lemma ItemsOf(m: Module, items: seq<Item>)
    requires GenModule(m) == Ok(items)
    ensures NewNames(BUILTINS, AllFunctions(m)) && |items| == |AllFunctions(m)|
    ensures forall i | 0 <= i < |items| ::
              && Delivers(Declared(m), AllFunctions(m)[i], items[i])
              && (items[i].def.Defined? ==> CodeOf(Declared(m), AllFunctions(m)[i], items[i].def.blocks))
  {
    hide DeclareAll, DefineAll, DefineFunction, NewNames, Delivers, CodeOf, AllFunctions;
    var fs := AllFunctions(m);
    var sigs := DeclareAll(BUILTINS, fs).value;
    DeclaresEach(BUILTINS, fs);
    DefinesEach(sigs, fs);
    forall i | 0 <= i < |fs|
      ensures Delivers(sigs, fs[i], items[i])
      ensures items[i].def.Defined? ==> CodeOf(sigs, fs[i], items[i].def.blocks)
    {
      OneDelivered(sigs, fs[i], DefineFunction(sigs, fs[i]).value);
    }
  }

  lemma OneDelivered(sigs: Sigs, f: Function, d: Definition)
    requires DefineFunction(sigs, f) == Ok(d)
    ensures Delivers(sigs, f, Item(FunctionName(f), SigOf(f), d))
    ensures d.Defined? ==> CodeOf(sigs, f, d.blocks)
  {
    hide GenFunction, ShapelyCode, FaithfulCode, SigOf, Lowering.LoweredSig;
    Lowering.LoweredSignature(f);
    if f.body != [] {
      CodeIsShapely(sigs, f);
      CodeIsFaithful(sigs, f, GenFunction(sigs, f).value);
    }
  }

  predicate CodeOf(sigs: Sigs, f: Function, code: Blocks) { GenFunction(sigs, f).Ok? && GenFunction(sigs, f).value.blocks == code }

  /** In every world, for all arguments that fit, the code of a function ends as the source
      does and causes the same events. */
  ghost predicate FaithfulCode(sigs: Sigs, f: Function, code: Blocks) {
    forall env, args, t | Preservation.Fits(f, args) && Preservation.Allocated(sigs, env, f, args, t) ::
      Linking.Alike(sigs, env, f, env, code, args, t)
  }

  lemma CodeIsFaithful(sigs: Sigs, f: Function, gf: Gen)
    requires GenFunction(sigs, f) == Ok(gf)
    ensures FaithfulCode(sigs, f, gf.blocks)
  {
    hide GenFunction, Preservation.Allocated, Preservation.SourceEnds, Preservation.CodeEnds;
    forall env, args, t | Preservation.Fits(f, args) && Preservation.Allocated(sigs, env, f, args, t)
      ensures Linking.Alike(sigs, env, f, env, gf.blocks, args, t)
    {
      Preservation.CodePreservesMeaning(sigs, env, f, gf, args, t);
    }
  }

  predicate AllConfined(m: Module) {
    (forall f | f in m.functions :: Allocation.Confined(f)) && (m.entry.Some? ==> Allocation.Confined(m.entry.value))
  }

  /** Function names are distinct and there is code for every function with a body. */
  predicate Linkable(fs: seq<Function>, items: seq<Item>) {
    && |items| == |fs|
    && (forall i | 0 <= i < |fs| && fs[i].body != [] :: items[i].def.Defined?)
    && (forall i, j | 0 <= i < |fs| && 0 <= j < |fs| && FunctionName(fs[i]) == FunctionName(fs[j]) :: i == j)
  }

  /** The functions that have a body, with what was generated for them. */
  ghost function Link(sigs: Sigs, fs: seq<Function>, items: seq<Item>): Linking.Program
    requires Linkable(fs, items)
  {
    Linking.Program(sigs,
                    map i | 0 <= i < |fs| && fs[i].body != [] :: FunctionName(fs[i]) := fs[i],
                    map i | 0 <= i < |fs| && fs[i].body != [] :: FunctionName(fs[i]) := items[i].def.blocks)
  }

  lemma LinksCompiled(sigs: Sigs, fs: seq<Function>, items: seq<Item>)
    requires Linkable(fs, items)
    requires forall i | 0 <= i < |fs| && fs[i].body != [] ::
               Allocation.Confined(fs[i]) && CodeOf(sigs, fs[i], items[i].def.blocks)
    ensures Linking.Compiled(Link(sigs, fs, items))
  {
    hide GenFunction, Allocation.Confined, FunctionName;
    var p := Link(sigs, fs, items);
    forall fn | fn in p.source
      ensures Allocation.Confined(p.source[fn]) && CodeOf(sigs, p.source[fn], p.code[fn])
    {
      var i :| 0 <= i < |fs| && fs[i].body != [] && FunctionName(fs[i]) == fn;
    }
  }

  /** Any function of the program, called from outside with arguments that fit. */
  ghost predicate FaithfulProgram(p: Linking.Program) {
    && p.code.Keys == p.source.Keys
    && forall outside, fn, args, t | fn in p.source && Preservation.Fits(p.source[fn], args) ::
      Linking.MeansTheSame(p, outside, fn, args, t)
  }

  lemma ProgramIsFaithful(p: Linking.Program)
    requires Linking.Compiled(p)
    ensures FaithfulProgram(p)
  {
    hide GenFunction, Allocation.Confined, Linking.MeansTheSame, Preservation.Fits;
    forall outside, fn, args, t | fn in p.source && Preservation.Fits(p.source[fn], args)
      ensures Linking.MeansTheSame(p, outside, fn, args, t)
    {
      Linking.CompiledProgramIsCorrect(p, outside, fn, args, t);
    }
  }

  /** The program made of what was generated for a module. */
  ghost function ProgramOf(m: Module, items: seq<Item>): Linking.Program
    requires GenModule(m) == Ok(items)
  {
    ItemsLinkable(m, items);
    Link(Declared(m), AllFunctions(m), items)
  }

  /** If the function has a body, the program has it, with the code of the item. */
  predicate LinksOne(p: Linking.Program, f: Function, item: Item) {
    var x := if f.name == "" then "main" else f.name;
    f.body != [] ==>
      x in p.source && p.source[x] == f && x in p.code && item.def.Defined? && p.code[x] == item.def.blocks
  }

  /** The program has all functions of the module, with what was generated for them, and no other. */
  ghost predicate LinksAll(m: Module, items: seq<Item>, p: Linking.Program)
    requires GenModule(m).Ok? && |items| == |m.functions| + if m.entry.Some? then 1 else 0
  {
    && p.sigs == Declared(m)
    && (forall i | 0 <= i < |m.functions| :: LinksOne(p, m.functions[i], items[i]))
    && (m.entry.Some? ==> LinksOne(p, m.entry.value, items[|m.functions|]))
    && (forall x | x in p.source :: Contains(m, p.source[x]) && Named(p.source[x], x))
  }

  lemma ItemsLinkable(m: Module, items: seq<Item>)
    requires GenModule(m) == Ok(items)
    ensures Linkable(AllFunctions(m), items) && |items| == |AllFunctions(m)|
  {
    hide DeclareAll, DefineAll, SigOf, GenFunction, FaithfulCode, ShapelyCode, FunctionName, AllFunctions, Lowering.LoweredSig;
    ItemsOf(m, items);
  }

  lemma LinksEach(sigs: Sigs, fs: seq<Function>, items: seq<Item>)
    requires Linkable(fs, items)
    ensures var p := Link(sigs, fs, items);
            && p.sigs == sigs && (forall i | 0 <= i < |fs| :: LinksOne(p, fs[i], items[i]))
            && forall x | x in p.source :: p.source[x] in fs && Named(p.source[x], x)
  {
    hide FunctionName;
    var p := Link(sigs, fs, items);
    forall f, x ensures x == FunctionName(f) <==> Named(f, x) { NameIs(f, x); }
    forall i | 0 <= i < |fs| && fs[i].body != []
      ensures LinksOne(p, fs[i], items[i])
    {
      assert Named(fs[i], FunctionName(fs[i]));
    }
  }

  lemma NameIs(f: Function, x: string)
    ensures x == FunctionName(f) <==> Named(f, x)
  {
  }

  lemma ItemsLink(m: Module, items: seq<Item>)
    requires GenModule(m) == Ok(items)
    ensures |items| == |m.functions| + if m.entry.Some? then 1 else 0
    ensures LinksAll(m, items, ProgramOf(m, items))
    ensures AllConfined(m) ==> FaithfulProgram(ProgramOf(m, items))
  {
    hide GenModule, Declared, AllFunctions, AllConfined, FaithfulProgram, Linkable, Link, LinksOne, Named, Contains;
    Positions(m);
    ItemsLinkable(m, items);
    LinksEach(Declared(m), AllFunctions(m), items);
    assert forall i | 0 <= i < |m.functions| :: AllFunctions(m)[i] == m.functions[i];
    if AllConfined(m) {
      AllCompiled(m, items);
      LinksCompiled(Declared(m), AllFunctions(m), items);
      ProgramIsFaithful(Link(Declared(m), AllFunctions(m), items));
    }
  }

  lemma AllCompiled(m: Module, items: seq<Item>)
    requires GenModule(m) == Ok(items) && AllConfined(m) && Linkable(AllFunctions(m), items)
    ensures forall i | 0 <= i < |AllFunctions(m)| && AllFunctions(m)[i].body != [] ::
              Allocation.Confined(AllFunctions(m)[i]) && CodeOf(Declared(m), AllFunctions(m)[i], items[i].def.blocks)
  {
    hide GenModule, Declared, AllFunctions, Allocation.Confined, Delivers, CodeOf;
    Positions(m);
    ItemsOf(m, items);
    assert forall f | f in AllFunctions(m) :: Contains(m, f);
  }

  predicate ShapelyCode(d: Definition)
    requires d.Defined?
  {
    && WellFormed.WellShaped(d.blocks) && WellFormed.JumpsLand(d.blocks) && WellFormed.OneExit(d.blocks, 1)
    && WellFormed.InsertedOnce(d.blocks, d.layout)
    && Registers.UsesAreSet(d.blocks) && Registers.SetOnce(d.blocks)
  }

  lemma CodeIsShapely(sigs: Sigs, f: Function)
    requires f.body != [] && DefineFunction(sigs, f).Ok?
    ensures ShapelyCode(DefineFunction(sigs, f).value)
  {
    hide GenFunction, WellFormed.WellShaped, WellFormed.JumpsLand, WellFormed.OneExit, WellFormed.InsertedOnce, Registers.UsesAreSet, Registers.SetOnce;
    WellFormed.CodeIsWellFormed(sigs, f, GenFunction(sigs, f).value);
  }

  /** What is printed gives back the module: for every module the parser builds, and any other
      in which semi-expressions stand only as conditions of cases. */
  method PrintAst(m: Module) returns (out: seq<Printing.Piece>)
    ensures out == Printing.ShowModule(m, 0, 0)
    ensures Decoding.PlainModule(m) ==> Decoding.DecodeModule(out, 0) == Printing.Got(m, [])
    ensures RoundTrip.ShapedModule(m) && (forall f | f in m.functions :: f.name != "") ==> Decoding.DecodeModule(out, 0) == Printing.Got(m, [])
  {
    hide Decoding.PlainModule, Decoding.DecodeModule, RoundTrip.ShapedModule;
    var printer := new AstPrinter.AstPrinter();
    printer.VisitModule(m);
    out := printer.out;
    assert [] + Printing.ShowModule(m, 0, 0) == Printing.ShowModule(m, 0, 0);
    if RoundTrip.ShapedModule(m) && forall f | f in m.functions :: f.name != "" {
      Decoding.ShapedModulePlain(m);
    }
    if Decoding.PlainModule(m) {
      Decoding.ModuleDecodes(m);
    }
  }
}
