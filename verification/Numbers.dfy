/** What the machine's numbers are: the laws behind reduction to a width, shifts, quotients
    and comparisons, without the formulas by which the machine computes them. */
module Numbers {
  import opened Ast
  import opened IR
  import opened Source

  lemma SmallPowers()
    ensures Pow2(0) == 1 && Pow2(1) == 2 && Pow2(7) == 0x80 && Pow2(8) == 0x100
    ensures Pow2(15) == 0x8000 && Pow2(16) == 0x1_0000
  {
  }

  lemma Powers()
    ensures Pow2(0) == 1 && Pow2(1) == 2 && Pow2(7) == 0x80 && Pow2(8) == 0x100
    ensures Pow2(31) == 0x8000_0000 && Pow2(32) == 0x1_0000_0000
    ensures Pow2(63) == 0x8000_0000_0000_0000 && Pow2(64) == 0x1_0000_0000_0000_0000
  {
    hide Pow2;
    SmallPowers();
    PowerAdds(16, 15);
    PowerAdds(16, 16);
    PowerAdds(32, 31);
    PowerAdds(32, 32);
  }

  lemma {:induction false} PowerAdds(a: nat, b: nat)
    ensures Pow2(a + b) == Pow2(a) * Pow2(b)
    decreases a
  {
    if a > 0 {
      PowerAdds(a - 1, b);
    }
  }

  /** `k` is the number of that many bits, two's complement, that differs from `n` by a
      multiple of the number of values. */
  predicate Reduced(bits: nat, n: int, k: int)
    requires bits > 0
  {
    0 - Pow2(bits - 1) <= k < Pow2(bits - 1) && (n - k) % Pow2(bits) == 0
  }

  /** The number of those bits that a whole number is reduced to by shifting it up, taking
      the remainder and shifting it down again. */
  lemma Shifted(n: int, m: int, h: int)
    requires m > 0
    ensures var k := (n + h) % m - h; -h <= k < m - h && (n - k) % m == 0
  {
    var x := n + h;
    assert x == x / m * m + x % m;
    QuotientIs(x / m * m, m, x / m, 0);
  }

  lemma OneRemainder(n: int, m: int, a: int, b: int)
    requires m > 0 && -m < a - b < m && (n - a) % m == 0 && (n - b) % m == 0
    ensures a == b
  {
    var p, q := (n - a) / m, (n - b) / m;
    assert n - a == p * m && n - b == q * m;
    assert a - b == (q - p) * m;
    SmallMultiple(q - p, m);
  }

  lemma SameRemainder(a: int, m: int, d: int, b: int)
    requires m > 0 && a % m == 0 && b == a + d * m
    ensures b % m == 0
  {
    assert a == a / m * m;
    assert b == (a / m + d) * m;
    QuotientIs(b, m, a / m + d, 0);
  }

  function Half(t: Ty): int
    requires t.IsInt()
  {
    match t case I1 => 1 case I8 => 0x80 case I32 => 0x8000_0000 case _ => 0x8000_0000_0000_0000
  }

  lemma WrapShifts(t: Ty, n: int)
    requires t.IsInt()
    ensures Pow2(t.Bits() - 1) == Half(t) && Pow2(t.Bits()) == 2 * Half(t) && Wrap(t, n) == (n + Half(t)) % (2 * Half(t)) - Half(t)
  {
    hide Pow2;
    Powers();
  }

  /** Wrapping to a type reduces to its width, and there is no other way to do so. */
  lemma WrapReduces(t: Ty, n: int, k: int)
    requires t.IsInt()
    ensures Reduced(t.Bits(), n, k) <==> Wrap(t, n) == k
  {
    hide Pow2, Wrap;
    var h := Half(t);
    WrapShifts(t, n);
    Shifted(n, 2 * h, h);
    if Reduced(t.Bits(), n, k) {
      OneRemainder(n, 2 * h, k, Wrap(t, n));
    }
  }

  lemma UnsignedRemains(t: Ty, n: int)
    requires t.IsInt()
    ensures Unsigned(t, n) == n % Pow2(t.Bits())
  {
    hide Pow2;
    Powers();
  }

  /** The value without its sign. */
  lemma UnsignedReduces(t: Ty, n: int)
    requires t.IsInt()
    ensures 0 <= Unsigned(t, n) < Pow2(t.Bits()) && (n - Unsigned(t, n)) % Pow2(t.Bits()) == 0
  {
    hide Pow2, Unsigned;
    UnsignedRemains(t, n);
    Shifted(n, Pow2(t.Bits()), 0);
  }

  /** Division truncates toward zero: the remainder is smaller than the divisor and never has
      the sign opposite to that of the dividend. */
  lemma QuotientTruncates(a: int, b: int)
    requires b != 0
    ensures var q := TruncDiv(a, b);
            var r := a - q * b;
            && -(if b < 0 then -b else b) < r < (if b < 0 then -b else b)
            && (a >= 0 ==> r >= 0) && (a <= 0 ==> r <= 0)
  {
    if a >= 0 {
      assert a == a / b * b + a % b;
    } else {
      assert -a == (-a) / b * b + (-a) % b;
      assert a - TruncDiv(a, b) * b == -((-a) % b);
    }
  }

  /** No other quotient does. */
  lemma OneQuotient(a: int, b: int, q: int)
    requires b != 0
    requires var r := a - q * b;
             && -(if b < 0 then -b else b) < r < (if b < 0 then -b else b)
             && (a >= 0 ==> r >= 0) && (a <= 0 ==> r <= 0)
    ensures q == TruncDiv(a, b)
  {
    QuotientTruncates(a, b);
    var p := TruncDiv(a, b);
    assert (a - p * b) - (a - q * b) == (q - p) * b;
    SmallMultiple(q - p, b);
  }

  lemma SmallMultiple(d: int, b: int)
    requires -(if b < 0 then -b else b) < d * b < (if b < 0 then -b else b)
    ensures d == 0
  {
  }

  function Doubled(a: int, times: nat): int { if times == 0 then a else 2 * Doubled(a, times - 1) }

  /** Rounded down, also below zero. */
  function Halved(a: int, times: nat): int { if times == 0 then a else Halved(a, times - 1) / 2 }

  /** A shift to the left doubles, a shift to the right halves, once for every place. */
  lemma {:induction false} ShiftsDouble(a: int, b: nat)
    ensures a * Pow2(b) == Doubled(a, b) && a / Pow2(b) == Halved(a, b)
    decreases b
  {
    if b > 0 {
      ShiftsDouble(a, b - 1);
      HalvedOnce(a, Pow2(b - 1));
    }
  }

  lemma HalvedOnce(a: int, p: int)
    requires p > 0
    ensures a / (2 * p) == a / p / 2
  {
    var q, r := a / p, a % p;
    var h, o := q / 2, q % 2;
    assert a == q * p + r && q == h * 2 + o;
    assert a == (h * 2 + o) * p + r == h * (2 * p) + (o * p + r);
    QuotientIs(a, 2 * p, h, o * p + r);
  }

  lemma QuotientIs(a: int, m: int, q: int, r: int)
    requires a == q * m + r && 0 <= r < m
    ensures a / m == q
  {
    assert (a / m - q) * m == r - a % m;
    SmallMultiple(a / m - q, m);
  }

  // ----- the operators of the language on integers -----

  /** Comparisons give the boolean that is stored as -1 or 0. */
  lemma Comparisons(fu: FloatUnit, ty: Ty, a: int, b: int, t: seq<Event>)
    requires ty.IsInt()
    ensures Operate(fu, EQ, ty, a, b, t) == Value(I1, if a == b then -1 else 0, t)
    ensures Operate(fu, GE, ty, a, b, t) == Value(I1, if a < b then 0 else -1, t)
    ensures Operate(fu, GT, ty, a, b, t) == Value(I1, if b < a then -1 else 0, t)
    ensures Operate(fu, LE, ty, a, b, t) == Value(I1, if b < a then 0 else -1, t)
    ensures Operate(fu, LT, ty, a, b, t) == Value(I1, if a < b then -1 else 0, t)
  {
  }

  /** The result of the operator, exact where nothing is lost. */
  function Result(op: Op, a: int, b: int): int
    requires op in {PLUS, MINUS, TIMES} || (op in {SHL, SHR} && b >= 0)
  {
    match op
    case PLUS => a + b
    case MINUS => a - b
    case TIMES => a * b
    case SHL => Doubled(a, b)
    case _ => Halved(a, b)
  }

  /** Sums, differences, products and shifts by less than the width are reduced to the
      width; a shift by more or by less than nothing is undefined. */
  lemma OperatorsReduce(fu: FloatUnit, op: Op, ty: Ty, a: int, b: int, t: seq<Event>)
    requires ty.IsInt() && op in {PLUS, MINUS, TIMES, SHL, SHR}
    ensures var r := Operate(fu, op, ty, a, b, t);
            if op in {SHL, SHR} && !(0 <= b < ty.Bits()) then r == Halt(Undefined, t)
            else r.Value? && r.ty == ty && r.trace == t && Reduced(ty.Bits(), Result(op, a, b), r.n)
  {
    hide Pow2, Wrap, Reduced, Doubled, Halved;
    if op in {PLUS, MINUS, TIMES} || 0 <= b < ty.Bits() {
      if 0 <= b {
        ShiftsDouble(a, b);
      }
      WrapReduces(ty, Result(op, a, b), Wrap(ty, Result(op, a, b)));
    }
  }

  /** A quotient is the truncated one if there is one and it has the width. */
  lemma DivisionTruncates(fu: FloatUnit, ty: Ty, a: int, b: int, q: int, t: seq<Event>)
    requires ty.IsInt() && b != 0
    requires var r := a - q * b;
             && -(if b < 0 then -b else b) < r < (if b < 0 then -b else b)
             && (a >= 0 ==> r >= 0) && (a <= 0 ==> r <= 0)
    ensures Operate(fu, DIV, ty, a, b, t) == if Reduced(ty.Bits(), q, q) then Value(ty, q, t) else Halt(Undefined, t)
    ensures Operate(fu, DIV, ty, a, 0, t) == Halt(Undefined, t)
  {
    hide Pow2, Wrap, Reduced, TruncDiv;
    OneQuotient(a, b, q);
    WrapReduces(ty, q, q);
  }
}
