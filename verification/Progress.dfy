/** The code never gets stuck, whatever the outside world answers and whichever way the
    run goes. */
module Progress {
  import opened Ast
  import opened IR
  import opened Typing
  import opened Codegen
  import opened Registers
  import opened WellFormed

  /** What is known of the code of every function with `n` parameters. */
  predicate Solid(code: Blocks, n: nat) {
    WellShaped(code) && JumpsLand(code) && AllOrdered(code, n) && code != [] && !Dead(code[0])
  }

  lemma CodeIsSolid(sigs: Sigs, f: Function, gf: Gen)
    requires GenFunction(sigs, f) == Ok(gf)
    ensures Solid(gf.blocks, |f.params|)
  {
    hide GenFunction, WellShaped, JumpsLand, OneExit, AllOrdered;
    CodeIsWellFormed(sigs, f, gf);
    CodeRegistered(sigs, f, gf);
  }

  /** The machine is inside a live block and every register set so far in it has a value. */
  predicate OnTrack(code: Blocks, m: MState) {
    && m.blk < |code| && !Dead(code[m.blk]) && m.pc < |code[m.blk]|
    && Known(code[m.blk][..m.pc]) <= m.regs.Keys
  }

  predicate NotStuck(code: Blocks, c: Config) {
    match c
    case Live(m) => OnTrack(code, m)
    case Done(o, _) => !o.IllFormed?
  }

  lemma OperandHasValue(args: seq<int>, m: MState, v: Operand, known: set<nat>)
    requires Fine(v, known, |args|) && known <= m.regs.Keys
    ensures OperandValue(args, m, v).Some?
  {
  }

  lemma {:induction false} OperandsHaveValues(args: seq<int>, m: MState, vs: seq<Operand>, known: set<nat>)
    requires AllFine(vs, known, |args|) && known <= m.regs.Keys
    ensures OperandValues(args, m, vs).Some?
    decreases vs
  {
    if vs != [] {
      OperandHasValue(args, m, vs[0], known);
      OperandsHaveValues(args, m, vs[1..], known);
    }
  }

  /** Where the machine is after an instruction that did not halt it. */
  predicate MovedOn(i: Instr, m: MState, m': MState, known: set<nat>) {
    if i.IsTerminator() then m'.blk in i.Targets() && m'.pc == 0
    else m'.blk == m.blk && m'.pc == m.pc + 1 && known + Sets(i) <= m'.regs.Keys
  }

  lemma InstrMovesOn(env: Env, args: seq<int>, i: Instr, m: MState, known: set<nat>)
    requires AllFine(Operands(i), known, |args|) && known <= m.regs.Keys && !i.Unreachable?
    ensures match ExecInstr(env, args, i, m)
            case Live(m') => MovedOn(i, m, m', known)
            case Done(o, _) => !o.IllFormed?
  {
    hide OperandValue, OperandValues, ApplyBin, ApplyCmp, ApplyCast, Wrap, Fine;
    forall v | v in Operands(i)
      ensures OperandValue(args, m, v).Some?
    {
      OperandHasValue(args, m, v, known);
    }
    if i.CallFn? {
      OperandsHaveValues(args, m, i.args, known);
    }
  }

  lemma StepNotStuck(code: Blocks, env: Env, args: seq<int>, m: MState)
    requires Solid(code, |args|) && OnTrack(code, m)
    ensures NotStuck(code, Step(code, env, args, Live(m)))
  {
    hide ExecInstr, Known, Sets, Operands, AllFine, Ordered;
    var b, i := code[m.blk], code[m.blk][m.pc];
    assert Terminated(b);
    OrderedAt(b, m.pc, |args|);
    InstrMovesOn(env, args, i, m, Known(b[..m.pc]));
    assert m.pc < |b| - 1 ==> b[..|b| - 1][m.pc] == i;
    KnownMore(b, m.pc);
  }

  lemma KnownMore(b: seq<Instr>, i: nat)
    requires i < |b|
    ensures Known(b[..i + 1]) == Known(b[..i]) + Sets(b[i]) && Known(b[..0]) == {}
  {
    assert b[..i + 1][..i] == b[..i];
  }

  lemma {:induction false} RunNotStuck(code: Blocks, env: Env, args: seq<int>, c: Config, k: nat)
    requires Solid(code, |args|) && NotStuck(code, c)
    ensures NotStuck(code, Run(code, env, args, c, k))
    decreases k
  {
    hide Step, Solid, OnTrack;
    if k > 0 {
      match c
      case Live(m) =>
        StepNotStuck(code, env, args, m);
        RunNotStuck(code, env, args, Step(code, env, args, c), k - 1);
      case Done(_, _) => RunDone(code, env, args, c, k);
    }
  }

  /** No run of the code of any function reads a register that has no value, runs off a
      block, jumps nowhere, or reaches code that is marked unreachable. */
  lemma NeverStuck(sigs: Sigs, f: Function, gf: Gen, env: Env, args: seq<int>, t: seq<Event>, k: nat)
    requires GenFunction(sigs, f) == Ok(gf) && |args| == |f.params|
    ensures NotStuck(gf.blocks, Run(gf.blocks, env, args, Live(Entry(t)), k))
  {
    hide GenFunction, Run, Ordered;
    CodeIsSolid(sigs, f, gf);
    EntryOnTrack(gf.blocks, |f.params|, t);
    RunNotStuck(gf.blocks, env, args, Live(Entry(t)), k);
  }

  lemma EntryOnTrack(code: Blocks, n: nat, t: seq<Event>)
    requires Solid(code, n)
    ensures OnTrack(code, Entry(t))
  {
    assert Terminated(code[0]);
    assert code[0][..0] == [];
  }
}
