/** How operators group: the expressions the parser returns are those of a grammar with one
    level for each kind of operator, written out without any numbers. */
module Precedence {
  import opened Ast
  import opened Grammar
  import opened Parsing
  import opened Sequences
  import Completeness
  import Soundness

  // ----- the grammar by levels, loosest first; on every level operators associate to the left -----

  predicate Equality(e: Term)
    decreases e, 5
  {
    Relation(e) || (e.Infix? && e.op == EQ && Equality(e.left) && Relation(e.right))
  }

  predicate Relation(e: Term)
    decreases e, 4
  {
    Shift(e) || (e.Infix? && e.op in {GE, GT, LE, LT} && Relation(e.left) && Shift(e.right))
  }

  predicate Shift(e: Term)
    decreases e, 3
  {
    Sum(e) || (e.Infix? && e.op in {SHL, SHR} && Shift(e.left) && Sum(e.right))
  }

  predicate Sum(e: Term)
    decreases e, 2
  {
    Product(e) || (e.Infix? && e.op in {PLUS, MINUS} && Sum(e.left) && Product(e.right))
  }

  predicate Product(e: Term)
    decreases e, 1
  {
    Operand(e) || (e.Infix? && e.op in {TIMES, DIV} && Product(e.left) && Operand(e.right))
  }

  /** A name, a literal or a call. */
  predicate Operand(e: Term)
    decreases e, 0
  {
    !e.Infix? && (e.Invoke? ==> Arguments(e.args))
  }

  predicate Arguments(args: seq<Term>)
    decreases args
  {
    args == [] || (Equality(args[0]) && Arguments(args[1..]))
  }

  /** The levels are the canonical terms, and each is reached by its own operators. */
  lemma {:induction false} Levels(e: Term)
    ensures Equality(e) <==> Canonical(e)
    ensures Relation(e) <==> Canonical(e) && (e.Infix? ==> e.op != EQ)
    ensures Shift(e) <==> Canonical(e) && (e.Infix? ==> e.op in {SHL, SHR, PLUS, MINUS, TIMES, DIV})
    ensures Sum(e) <==> Canonical(e) && (e.Infix? ==> e.op in {PLUS, MINUS, TIMES, DIV})
    ensures Product(e) <==> Canonical(e) && (e.Infix? ==> e.op in {TIMES, DIV})
    ensures Operand(e) <==> Canonical(e) && !e.Infix?
    decreases e
  {
    match e
    case Invoke(_, args) =>
      ArgumentLevels(args);
      FromLevel(e);
    case Infix(_, l, r) =>
      Levels(l);
      Levels(r);
      FromLevel(e);
    case _ => FromLevel(e);
  }

  /** Each level contains the tighter ones. */
  lemma FromLevel(e: Term)
    ensures Operand(e) ==> Product(e)
    ensures Product(e) ==> Sum(e)
    ensures Sum(e) ==> Shift(e)
    ensures Shift(e) ==> Relation(e)
    ensures Relation(e) ==> Equality(e)
  {
  }

  lemma {:induction false} ArgumentLevels(args: seq<Term>)
    ensures Arguments(args) <==> AllCanonical(args)
    decreases args
  {
    if args != [] {
      Levels(args[0]);
      ArgumentLevels(args[1..]);
    }
  }

  // ----- what the parser does with them -----

  /** Parsing an expression finds the one tree of the grammar by levels that its tokens
      spell, and all of it. */
  lemma ParsesByLevels(e: Term, s: seq<Token>, rest: seq<Token>)
    requires Stream(s) && Stream(rest) && !rest[0].OP?
    ensures ParseTerm(s) == Ok(e, rest) <==> Equality(e) && s == TermTokens(e) + rest
  {
    hide ParseTerm, TermTokens, Equality, Canonical;
    Levels(e);
    if ParseTerm(s) == Ok(e, rest) {
      Soundness.ParsedTermSound(s, e, rest);
      assert s == TermTokens(e) + rest;
    }
    if Equality(e) {
      Completeness.ParsedTermComplete(e, rest);
    }
  }

  /** Two operators in a row: the second takes its operands first exactly when it binds
      tighter. */
  lemma Grouping(x: Term, a: Op, y: Term, b: Op, z: Term, rest: seq<Token>)
    requires Operand(x) && Operand(y) && Operand(z) && Stream(rest) && !rest[0].OP?
    ensures var s := TermTokens(x) + [OP(a)] + TermTokens(y) + [OP(b)] + TermTokens(z) + rest;
            && Stream(s)
            && ParseTerm(s) == Ok(if Tighter(b, a) then Infix(a, x, Infix(b, y, z)) else Infix(b, Infix(a, x, y), z), rest)
  {
    hide ParseTerm, Operand;
    Levels(x);
    Levels(y);
    Levels(z);
    var e := if Tighter(b, a) then Infix(a, x, Infix(b, y, z)) else Infix(b, Infix(a, x, y), z);
    assert Canonical(e);
    Completeness.ParsedTermComplete(e, rest);
    SameTokens(x, a, y, b, z);
  }

  /** The tokens do not show how they group. */
  lemma SameTokens(x: Term, a: Op, y: Term, b: Op, z: Term)
    ensures var s := TermTokens(x) + [OP(a)] + TermTokens(y) + [OP(b)] + TermTokens(z);
            TermTokens(Infix(a, x, Infix(b, y, z))) == s && TermTokens(Infix(b, Infix(a, x, y), z)) == s
  {
    var tx, ty, tz := TermTokens(x), TermTokens(y), TermTokens(z);
    assert TermTokens(Infix(b, y, z)) == ty + [OP(b)] + tz;
    assert TermTokens(Infix(a, x, y)) == tx + [OP(a)] + ty;
    assert TermTokens(Infix(a, x, Infix(b, y, z))) == tx + [OP(a)] + (ty + [OP(b)] + tz);
    Assoc(tx + [OP(a)], ty + [OP(b)], tz);
    Assoc(tx + [OP(a)], ty, [OP(b)]);
  }
}
