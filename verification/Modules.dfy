/** Whole modules: every function is declared first, then each is generated on its own. */
module Modules {
  import opened Ast
  import opened IR
  import opened Typing
  import opened Codegen

  /** A function without a body stays a prototype. */
  datatype Definition = Prototype | Defined(blocks: Blocks, layout: seq<nat>)

  datatype Item = Item(name: string, sig: Sig, def: Definition)

  const BUILTINS: Sigs := map["abort" := Sig(Void, []), "printf" := Sig(I32, [Ptr]), "scanf" := Sig(I32, [Ptr])]

  function AllFunctions(m: Module): seq<Function> {
    m.functions + match m.entry case None => [] case Some(f) => [f]
  }

  function Declare(sigs: Sigs, f: Function): Result<Sigs> {
    if FunctionName(f) in sigs then Err(InternalError) else Ok(sigs[FunctionName(f) := SigOf(f)])
  }

  function DeclareAll(sigs: Sigs, fs: seq<Function>): Result<Sigs>
    decreases fs
  {
    if fs == [] then Ok(sigs)
    else
      var s :- Declare(sigs, fs[0]);
      DeclareAll(s, fs[1..])
  }

  function DefineFunction(sigs: Sigs, f: Function): Result<Definition> {
    if f.body == [] then Ok(Prototype)
    else
      var g :- GenFunction(sigs, f);
      Ok(Defined(g.blocks, g.layout))
  }

  function DefineAll(sigs: Sigs, fs: seq<Function>): Result<seq<Item>> {
    if fs == [] then Ok([])
    else
      var d :- DefineFunction(sigs, fs[0]);
      var rest :- DefineAll(sigs, fs[1..]);
      Ok([Item(FunctionName(fs[0]), SigOf(fs[0]), d)] + rest)
  }

  function GenModule(m: Module): Result<seq<Item>> {
    var sigs :- DeclareAll(BUILTINS, AllFunctions(m));
    DefineAll(sigs, AllFunctions(m))
  }

  // ----- the order of the functions does not matter -----

  /** Equal results, whatever the error. */
  predicate Agree<T(==)>(a: Result<T>, b: Result<T>) { a == b || (a.Err? && b.Err?) }

  /** The same items, in whatever order, or an error in both. */
  ghost predicate SameItems(a: Result<seq<Item>>, b: Result<seq<Item>>) {
    match (a, b)
    case (Ok(s), Ok(t)) => |s| == |t| && forall x :: x in s <==> x in t
    case (Err(_), Err(_)) => true
    case _ => false
  }

  lemma {:induction false} DeclareToFront(sigs: Sigs, a: seq<Function>, f: Function, b: seq<Function>)
    ensures Agree(DeclareAll(sigs, a + [f] + b), DeclareAll(sigs, [f] + (a + b)))
    decreases a
  {
    hide SigOf;
    assert ([f] + (a + b))[1..] == a + b;
    if a == [] {
      assert a + [f] + b == [f] + (a + b);
    } else {
      var rest := a[1..];
      assert (a + [f] + b)[1..] == rest + [f] + b && (a + b)[1..] == rest + b;
      assert ([f] + (rest + b))[1..] == rest + b;
      if Declare(sigs, a[0]).Ok? {
        var s := Declare(sigs, a[0]).value;
        DeclareToFront(s, rest, f, b);
        if FunctionName(f) !in s {
          var na, nf := FunctionName(a[0]), FunctionName(f);
          assert sigs[na := SigOf(a[0])][nf := SigOf(f)] == sigs[nf := SigOf(f)][na := SigOf(a[0])];
        }
      }
    }
  }

  /** A module's code, if any, is one item for each function, made from that function and
      the signatures alone. */
  lemma {:induction false} DefinesEach(sigs: Sigs, fs: seq<Function>)
    ensures DefineAll(sigs, fs).Ok? <==> forall i | 0 <= i < |fs| :: DefineFunction(sigs, fs[i]).Ok?
    ensures DefineAll(sigs, fs).Ok? ==>
            var items := DefineAll(sigs, fs).value;
            && |items| == |fs|
            && forall i | 0 <= i < |fs| :: items[i] == Item(FunctionName(fs[i]), SigOf(fs[i]), DefineFunction(sigs, fs[i]).value)
    decreases fs
  {
    hide SigOf, DefineFunction;
    if fs != [] {
      DefinesEach(sigs, fs[1..]);
      assert forall i | 0 < i < |fs| :: fs[i] == fs[1..][i - 1];
    }
  }

  lemma {:induction false} DeclareAnyOrder(sigs: Sigs, fs: seq<Function>, gs: seq<Function>)
    requires multiset(fs) == multiset(gs)
    ensures Agree(DeclareAll(sigs, fs), DeclareAll(sigs, gs))
    decreases fs
  {
    if fs == [] {
      assert |gs| == |multiset(gs)| == 0;
    } else {
      var a, b := Around(fs, gs);
      DeclareToFront(sigs, a, fs[0], b);
      assert ([fs[0]] + (a + b))[1..] == a + b;
      if Declare(sigs, fs[0]).Ok? {
        DeclareAnyOrder(Declare(sigs, fs[0]).value, fs[1..], a + b);
      }
    }
  }

  lemma ItemMoved(sigs: Sigs, fs: seq<Function>, gs: seq<Function>, x: Item)
    requires DefineAll(sigs, fs).Ok? && DefineAll(sigs, gs).Ok? && (forall f :: f in fs ==> f in gs)
    requires x in DefineAll(sigs, fs).value
    ensures x in DefineAll(sigs, gs).value
  {
    hide SigOf, DefineFunction, DefineAll;
    DefinesEach(sigs, fs);
    DefinesEach(sigs, gs);
    var i :| 0 <= i < |fs| && DefineAll(sigs, fs).value[i] == x;
    assert fs[i] in gs;
    var k :| 0 <= k < |gs| && gs[k] == fs[i];
    assert DefineAll(sigs, gs).value[k] == x;
  }

  lemma DefineAnyOrder(sigs: Sigs, fs: seq<Function>, gs: seq<Function>)
    requires multiset(fs) == multiset(gs)
    ensures SameItems(DefineAll(sigs, fs), DefineAll(sigs, gs))
  {
    hide SigOf, DefineFunction, DefineAll;
    assert forall f :: f in fs <==> f in multiset(fs);
    assert forall f :: f in gs <==> f in multiset(gs);
    DefinesEach(sigs, fs);
    DefinesEach(sigs, gs);
    var a, b := DefineAll(sigs, fs), DefineAll(sigs, gs);
    if a.Ok? {
      forall i | 0 <= i < |gs| ensures DefineFunction(sigs, gs[i]).Ok? { assert gs[i] in fs; }
      assert |fs| == |multiset(fs)| == |gs|;
      forall x | x in a.value ensures x in b.value { ItemMoved(sigs, fs, gs, x); }
      forall x | x in b.value ensures x in a.value { ItemMoved(sigs, gs, fs, x); }
    } else {
      var i :| 0 <= i < |fs| && DefineFunction(sigs, fs[i]).Err?;
      assert fs[i] in gs;
    }
  }

  lemma WithoutOne(a: seq<Function>, f: Function, b: seq<Function>)
    ensures multiset(a + b) == multiset(a + [f] + b) - multiset{f}
  {
    assert multiset(a + [f] + b) == multiset(a) + multiset{f} + multiset(b);
    assert multiset(a + b) == multiset(a) + multiset(b);
  }

  lemma WithoutFirst(fs: seq<Function>)
    requires fs != []
    ensures multiset(fs[1..]) == multiset(fs) - multiset{fs[0]} && fs[0] in multiset(fs)
  {
    WithoutOne([], fs[0], fs[1..]);
    assert [] + fs[1..] == fs[1..] && [] + [fs[0]] + fs[1..] == fs;
  }

  lemma Split(gs: seq<Function>, f: Function) returns (a: seq<Function>, b: seq<Function>)
    requires f in gs
    ensures gs == a + [f] + b
  {
    var k :| 0 <= k < |gs| && gs[k] == f;
    a, b := gs[..k], gs[k + 1..];
  }

  /** Where the first of `fs` occurs in a reordering of them. */
  lemma Around(fs: seq<Function>, gs: seq<Function>) returns (a: seq<Function>, b: seq<Function>)
    requires fs != [] && multiset(fs) == multiset(gs)
    ensures gs == a + [fs[0]] + b && multiset(fs[1..]) == multiset(a + b)
  {
    WithoutFirst(fs);
    assert fs[0] in gs;
    a, b := Split(gs, fs[0]);
    WithoutOne(a, fs[0], b);
  }

  /** Reordering the functions of a module reorders what is generated and changes nothing
      in it: every name is declared with the same signature and every function gets the
      same body. */
  lemma FunctionOrderIrrelevant(m: Module, m': Module)
    requires multiset(m.functions) == multiset(m'.functions) && m.entry == m'.entry
    ensures Agree(DeclareAll(BUILTINS, AllFunctions(m)), DeclareAll(BUILTINS, AllFunctions(m')))
    ensures SameItems(GenModule(m), GenModule(m'))
  {
    var fs, gs := AllFunctions(m), AllFunctions(m');
    DeclareAnyOrder(BUILTINS, fs, gs);
    if DeclareAll(BUILTINS, fs).Ok? {
      DefineAnyOrder(DeclareAll(BUILTINS, fs).value, fs, gs);
    }
  }

  predicate NewNames(sigs: Sigs, fs: seq<Function>) {
    && (forall i | 0 <= i < |fs| :: FunctionName(fs[i]) !in sigs)
    && (forall i, j | 0 <= i < j < |fs| :: FunctionName(fs[i]) != FunctionName(fs[j]))
  }

  /** Declaring succeeds exactly when the names are new and distinct; a name then resolves
      to the one function that has it, wherever that stands. */
  lemma {:induction false} DeclaresEach(sigs: Sigs, fs: seq<Function>)
    ensures DeclareAll(sigs, fs).Ok? <==> NewNames(sigs, fs)
    ensures DeclareAll(sigs, fs).Ok? ==>
            var s := DeclareAll(sigs, fs).value;
            && (forall x | x in sigs :: x in s && s[x] == sigs[x])
            && (forall i | 0 <= i < |fs| :: FunctionName(fs[i]) in s && s[FunctionName(fs[i])] == SigOf(fs[i]))
            && (forall x | x in s && x !in sigs :: exists i :: 0 <= i < |fs| && FunctionName(fs[i]) == x)
    decreases fs
  {
    hide SigOf, FunctionName, NewNames;
    if fs == [] {
      NoNames(sigs);
    } else {
      NewNamesStep(sigs, fs);
      if Declare(sigs, fs[0]).Ok? {
        DeclaresEach(Declare(sigs, fs[0]).value, fs[1..]);
        assert forall i | 0 < i < |fs| :: fs[i] == fs[1..][i - 1];
      }
    }
  }

  lemma NoNames(sigs: Sigs)
    ensures NewNames(sigs, [])
  {
  }

  lemma NewNamesStep(sigs: Sigs, fs: seq<Function>)
    requires fs != []
    ensures var x := FunctionName(fs[0]);
            NewNames(sigs, fs) <==> x !in sigs && NewNames(sigs[x := SigOf(fs[0])], fs[1..])
  {
    hide SigOf, FunctionName;
    var x, rest := FunctionName(fs[0]), fs[1..];
    assert forall i | 0 <= i < |rest| :: rest[i] == fs[i + 1];
    assert forall i | 0 < i < |fs| :: fs[i] == rest[i - 1];
  }
}
