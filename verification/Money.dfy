/** Fixed-point money helpers: half-up quantisation to four places and exact summation
    inside the 28-digit decimal context. */
module Money {

  const PLACES: nat := 4

  // Ten to the 28th: a coefficient at or above it has more digits than the default context keeps.
  const CONTEXT_LIMIT: int := 10000000000000000000000000000

  // Ten to the 19th: bound on the coefficient of a NUMERIC(19,4) column.
  const COLUMN_LIMIT: int := 10000000000000000000

  // ROUNDING_TOLERANCE = 0.0005, in units of 10^-4.
  const TOLERANCE_UNITS: int := 5

  /** A Python Decimal by value: coef / 10^scale, or one of the special values. */
  datatype Decimal = Finite(coef: int, scale: nat) | NaN | Infinite(negative: bool)

  /** What `Decimal(str(amount))` makes of the argument. */
  datatype Parsed = Parsed(value: Decimal) | Unparsable

  datatype Outcome = Ok(value: Decimal) | ValueError | InvalidOperation

  function Pow10(k: nat): (p: int)
    ensures p >= 1
  {
    if k == 0 then 1 else 10 * Pow10(k - 1)
  }

  function Abs(x: int): int { if x < 0 then -x else x }

  /** c / m rounded to the nearest integer, ties away from zero. */
  function HalfUp(c: int, m: int): (r: int)
    requires m > 0
  {
    if c >= 0 then (2 * c + m) / (2 * m) else -((m - 2 * c) / (2 * m))
  }

  /** c / m rounded to the nearest integer, ties to even: the context's own rounding. */
  function HalfEven(c: int, m: int): int
    requires m > 0
  {
    var q, rest := c / m, c % m;
    if 2 * rest < m || (2 * rest == m && q % 2 == 0) then q else q + 1
  }

  /** r is the nearest integer to c / m, and a tie went away from zero. */
  predicate NearestAway(r: int, c: int, m: int)
  {
    && -m <= 2 * (r * m - c) <= m
    && (2 * (r * m - c) == m ==> c > 0)
    && (2 * (r * m - c) == -m ==> c < 0)
  }

  lemma HalfUpNearest(c: int, m: int)
    requires m > 0
    ensures NearestAway(HalfUp(c, m), c, m)
  {
  }

  /** Widening numerator and denominator alike keeps the nearest integer. */
  lemma NearestScaled(r: int, c: int, m: int, t: int)
    requires m > 0 && t > 0 && NearestAway(r, c, m)
    ensures m * t > 0 && NearestAway(r, c * t, m * t)
  {
  }

  /** Roundings of ordered quotients are ordered, whatever the two denominators. */
  lemma NearestOrdered(r1: int, c1: int, m1: int, r2: int, c2: int, m2: int)
    requires m1 > 0 && m2 > 0
    requires NearestAway(r1, c1, m1) && NearestAway(r2, c2, m2)
    requires c1 * m2 <= c2 * m1
    ensures r1 <= r2
  {
    NearestScaled(r1, c1, m1, m2);
    NearestScaled(r2, c2, m2, m1);
    assert m1 * m2 == m2 * m1;
    SameDenominatorOrdered(r1, c1 * m2, r2, c2 * m1, m1 * m2);
  }

  lemma SameDenominatorOrdered(r1: int, a: int, r2: int, b: int, m: int)
    requires m > 0 && a <= b && NearestAway(r1, a, m) && NearestAway(r2, b, m)
    ensures r1 <= r2
  {
    assert (r2 + 1) * m == r2 * m + m;
    if r1 > r2 {
      MulMono(r2 + 1, r1, m);
    }
  }

  lemma NearestUnique(r1: int, r2: int, c: int, m: int)
    requires m > 0 && NearestAway(r1, c, m) && NearestAway(r2, c, m)
    ensures r1 == r2
  {
    NearestOrdered(r1, c, m, r2, c, m);
    NearestOrdered(r2, c, m, r1, c, m);
  }

  lemma MulMono(a: int, b: int, t: int)
    requires a <= b && t >= 0
    ensures a * t <= b * t
  {
  }

  lemma MulSign(a: int, t: int)
    requires a > 0 && t > 0
    ensures a * t > 0
  {
  }

  /** The rounding depends on the quotient alone, so a common denominator may be used. */
  lemma HalfUpScale(c: int, m: int, t: int)
    requires m > 0 && t > 0
    ensures m * t > 0
    ensures HalfUp(c * t, m * t) == HalfUp(c, m)
  {
    MulSign(m, t);
    HalfUpNearest(c, m);
    HalfUpNearest(c * t, m * t);
    assert (c * t) * m == c * (m * t);
    NearestOrdered(HalfUp(c * t, m * t), c * t, m * t, HalfUp(c, m), c, m);
    NearestOrdered(HalfUp(c, m), c, m, HalfUp(c * t, m * t), c * t, m * t);
  }

  // ------------------------------------------------------------ quantize

  function Quantized(d: Decimal, places: nat): int
    requires d.Finite?
  {
    HalfUp(d.coef * Pow10(places), Pow10(d.scale))
  }

  /** Decimal.quantize with ROUND_HALF_UP: refuses infinities and results wider than the context. */
  function Quantize(d: Decimal, places: nat): Outcome
  {
    match d
    case NaN => Ok(NaN)
    case Infinite(_) => InvalidOperation
    case Finite(_, _) =>
      var q := Quantized(d, places);
      if Abs(q) >= CONTEXT_LIMIT then InvalidOperation else Ok(Finite(q, places))
  }

  function ToMoney(amount: Parsed, places: nat := PLACES): Outcome
  {
    match amount
    case Unparsable => ValueError
    case Parsed(d) => Quantize(d, places)
  }

  function Negated(d: Decimal): Decimal {
    match d
    case Finite(c, s) => Finite(-c, s)
    case NaN => NaN
    case Infinite(n) => Infinite(!n)
  }

  /** a <= b as numbers. */
  predicate LessEqual(a: Decimal, b: Decimal)
    requires a.Finite? && b.Finite?
  {
    a.coef * Pow10(b.scale) <= b.coef * Pow10(a.scale)
  }

  lemma MoneyWithinHalfUnit(d: Decimal, places: nat)
    requires d.Finite? && ToMoney(Parsed(d), places).Ok?
    ensures var v := ToMoney(Parsed(d), places).value;
            && v.Finite? && v.scale == places
            && NearestAway(v.coef, d.coef * Pow10(places), Pow10(d.scale))
            && Abs(2 * (v.coef * Pow10(d.scale) - d.coef * Pow10(places))) <= Pow10(d.scale)
  {
    HalfUpNearest(d.coef * Pow10(places), Pow10(d.scale));
  }

  /** What money() refuses: text that is no number, infinities, and numbers too large for 28 digits; NaN passes through. */
  lemma MoneyErrorsExactly(amount: Parsed, places: nat)
    ensures ToMoney(amount, places) == ValueError <==> amount.Unparsable?
    ensures amount.Parsed? && amount.value.NaN? ==> ToMoney(amount, places) == Ok(NaN)
    ensures amount.Parsed? && amount.value.Infinite? ==> ToMoney(amount, places) == InvalidOperation
    ensures amount.Parsed? && amount.value.Finite? ==>
              var d := amount.value;
              (ToMoney(amount, places).Ok? <==>
                 2 * Abs(d.coef * Pow10(places)) < (2 * CONTEXT_LIMIT - 1) * Pow10(d.scale))
  {
    if amount.Parsed? && amount.value.Finite? {
      var d := amount.value;
      WideExactly(d.coef * Pow10(places), Pow10(d.scale), CONTEXT_LIMIT);
    }
  }

  lemma WideExactly(c: int, m: int, limit: int)
    requires m > 0 && limit > 0
    ensures Abs(HalfUp(c, m)) < limit <==> 2 * Abs(c) < (2 * limit - 1) * m
  {
    var r := HalfUp(c, m);
    HalfUpNearest(c, m);
    assert (2 * limit - 1) * m == 2 * (limit * m) - m;
    if Abs(r) < limit {
      if r >= 0 { MulMono(r, limit - 1, m); } else { MulMono(-(limit - 1), r, m); }
      assert (limit - 1) * m == limit * m - m && (-(limit - 1)) * m == -(limit * m) + m;
    } else {
      if r >= 0 { MulMono(limit, r, m); } else { MulMono(r, -limit, m); assert (-limit) * m == -(limit * m); }
    }
  }

  lemma MoneyIdempotent(amount: Parsed, places: nat)
    requires ToMoney(amount, places).Ok?
    ensures ToMoney(Parsed(ToMoney(amount, places).value), places) == ToMoney(amount, places)
  {
    var v := ToMoney(amount, places).value;
    if v.Finite? {
      var p := Pow10(places);
      HalfUpNearest(v.coef * p, p);
      NearestUnique(HalfUp(v.coef * p, p), v.coef, v.coef * p, p);
    }
  }

  lemma MoneyOdd(d: Decimal, places: nat)
    ensures ToMoney(Parsed(Negated(d)), places) ==
            match ToMoney(Parsed(d), places)
            case Ok(v) => Ok(Negated(v))
            case e => e
  {
    if d.Finite? {
      assert (-d.coef) * Pow10(places) == -(d.coef * Pow10(places));
    }
  }

  lemma Rescaled(c1: int, m1: int, c2: int, m2: int, p: int)
    requires c1 * m1 <= c2 * m2 && p > 0
    ensures (c1 * p) * m1 <= (c2 * p) * m2
  {
  }

  lemma MoneyMonotone(a: Decimal, b: Decimal, places: nat)
    requires a.Finite? && b.Finite? && LessEqual(a, b)
    requires ToMoney(Parsed(a), places).Ok? && ToMoney(Parsed(b), places).Ok?
    ensures LessEqual(ToMoney(Parsed(a), places).value, ToMoney(Parsed(b), places).value)
  {
    var p, ma, mb := Pow10(places), Pow10(a.scale), Pow10(b.scale);
    HalfUpNearest(a.coef * p, ma);
    HalfUpNearest(b.coef * p, mb);
    Rescaled(a.coef, mb, b.coef, ma, p);
    NearestOrdered(HalfUp(a.coef * p, ma), a.coef * p, ma, HalfUp(b.coef * p, mb), b.coef * p, mb);
    MulMono(Quantized(a, places), Quantized(b, places), p);
  }

  // ------------------------------------------------------------ money_sum

  function Digits(n: nat): nat {
    if n < 10 then 1 else 1 + Digits(n / 10)
  }

  /** One context operation's rounding of an exact coefficient to 28 significant digits. */
  function InContext(c: int): int
  {
    if Abs(c) < CONTEXT_LIMIT then c
    else
      var n := Digits(Abs(c));
      var step := Pow10(if n > 28 then n - 28 else 0);
      HalfEven(c, step) * step
  }

  /** Decimal addition: NaN absorbs, and opposite infinities raise. */
  function Plus(a: Decimal, b: Decimal): Outcome {
    if a.NaN? || b.NaN? then Ok(NaN)
    else if a.Infinite? && b.Infinite? && a != b then InvalidOperation
    else if a.Infinite? then Ok(a)
    else if b.Infinite? then Ok(b)
    else
      var scale := if a.scale >= b.scale then a.scale else b.scale;
      Ok(Finite(InContext(a.coef * Pow10(scale - a.scale) + b.coef * Pow10(scale - b.scale)), scale))
  }

  predicate AllFinite(items: seq<Decimal>) {
    forall i :: 0 <= i < |items| ==> items[i].Finite?
  }

  /** Left-to-right running total of the loop, starting from Decimal("0"). */
  function Running(items: seq<Decimal>): Outcome {
    if items == [] then Ok(Finite(0, 0))
    else
      match Running(items[..|items| - 1])
      case Ok(total) => Plus(total, items[|items| - 1])
      case error => error
  }

  function SumOf(items: seq<Decimal>): Outcome {
    match Running(items)
    case Ok(total) => ToMoney(Parsed(total))
    case error => error
  }

  /** Once an addition has raised, the loop is over. */
  lemma {:induction false} ErrorStays(items: seq<Decimal>, i: nat)
    requires i <= |items| && !Running(items[..i]).Ok?
    ensures Running(items) == Running(items[..i])
  {
    if i == |items| {
      assert items[..i] == items;
    } else {
      var front := items[..|items| - 1];
      assert front[..i] == items[..i];
      ErrorStays(front, i);
    }
  }

  /** The running total is a number exactly when every term is. */
  lemma {:induction false} RunningFiniteIff(items: seq<Decimal>)
    ensures Running(items).Ok? && Running(items).value.Finite? <==> AllFinite(items)
  {
    if items != [] {
      var front := items[..|items| - 1];
      RunningFiniteIff(front);
      assert AllFinite(items) <==> AllFinite(front) && items[|items| - 1].Finite?;
    }
  }

  method MoneySum(items: seq<Decimal>) returns (total: Outcome)
    ensures total == SumOf(items)
  {
    var sum: Decimal := Finite(0, 0);
    for i := 0 to |items|
      invariant Running(items[..i]) == Ok(sum)
    {
      assert items[..i + 1][..i] == items[..i];
      var next := Plus(sum, items[i]);
      if !next.Ok? {
        ErrorStays(items, i + 1);
        return next;
      }
      sum := next.value;
    }
    assert items[..|items|] == items;
    total := ToMoney(Parsed(sum));
  }

  predicate HasNaN(items: seq<Decimal>) { exists i :: 0 <= i < |items| && items[i].NaN? }

  predicate HasInfinity(items: seq<Decimal>, negative: bool) { exists i :: 0 <= i < |items| && items[i] == Infinite(negative) }

  /** Special terms: up to the first NaN opposite infinities raise, a NaN stays, and infinities of one sign are the total. */
  lemma {:induction false} SpecialTotals(items: seq<Decimal>)
    ensures Running(items) == InvalidOperation <==>
              exists n :: 0 <= n <= |items| && !HasNaN(items[..n]) && HasInfinity(items[..n], true) && HasInfinity(items[..n], false)
    ensures Running(items).Ok? && Running(items).value.NaN? ==> HasNaN(items)
    ensures Running(items).Ok? && HasNaN(items) ==> Running(items).value.NaN?
    ensures Running(items).Ok? && !HasNaN(items) ==>
              forall negative :: Running(items).value == Infinite(negative) <==> HasInfinity(items, negative)
    ensures Running(items) != ValueError
  {
    if items == [] {
      assert items[..0] == [];
    } else {
      var front, last := items[..|items| - 1], items[|items| - 1];
      SpecialTotals(front);
      assert items[..|items|] == items;
      assert forall n :: 0 <= n <= |front| ==> front[..n] == items[..n];
      HasMore(items);
      if Running(items) == InvalidOperation && Running(front) == InvalidOperation {
        var n :| 0 <= n <= |front| && !HasNaN(front[..n]) && HasInfinity(front[..n], true) && HasInfinity(front[..n], false);
        assert items[..n] == front[..n];
      }
      if Running(items) != InvalidOperation {
        forall n | 0 <= n <= |items|
          ensures HasNaN(items[..n]) || !HasInfinity(items[..n], true) || !HasInfinity(items[..n], false)
        {
          if n <= |front| { assert items[..n] == front[..n]; }
        }
      }
    }
  }

  lemma HasMore(items: seq<Decimal>)
    requires items != []
    ensures var front, last := items[..|items| - 1], items[|items| - 1];
            && (HasNaN(items) <==> HasNaN(front) || last.NaN?)
            && forall negative :: HasInfinity(items, negative) <==> HasInfinity(front, negative) || last == Infinite(negative)
  {
    var front := items[..|items| - 1];
    if i :| 0 <= i < |front| && front[i].NaN? { assert items[i].NaN?; }
    forall negative ensures HasInfinity(front, negative) ==> HasInfinity(items, negative) {
      if i :| 0 <= i < |front| && front[i] == Infinite(negative) { assert items[i] == front[i]; }
    }
    assert items[|items| - 1] in items;
  }

  predicate FourPlaces(items: seq<Decimal>) {
    forall i :: 0 <= i < |items| ==> items[i].Finite? && items[i].scale == PLACES
  }

  /** The exact mathematical sum, in units of 10^-4. */
  function Units(items: seq<Decimal>): int
    requires FourPlaces(items)
  {
    if items == [] then 0 else Units(items[..|items| - 1]) + items[|items| - 1].coef
  }

  /** No running total leaves the 28-digit context. */
  predicate StaysInContext(items: seq<Decimal>)
    requires FourPlaces(items)
  {
    forall i :: 0 <= i <= |items| ==> Abs(Units(items[..i])) < CONTEXT_LIMIT
  }

  lemma {:induction false} RunningExact(items: seq<Decimal>)
    requires FourPlaces(items) && StaysInContext(items)
    ensures Running(items) == Ok(if items == [] then Finite(0, 0) else Finite(Units(items), PLACES))
  {
    if items != [] {
      var front, last := items[..|items| - 1], items[|items| - 1];
      assert forall i :: 0 <= i <= |front| ==> front[..i] == items[..i];
      RunningExact(front);
      assert items[..|items|] == items;
      assert Pow10(0) == 1;
    }
  }

  /** Inside the context the computed sum is the exact sum. */
  lemma MoneySumExact(items: seq<Decimal>)
    requires FourPlaces(items) && StaysInContext(items)
    ensures SumOf(items) == Ok(Finite(Units(items), PLACES))
  {
    RunningExact(items);
    assert items[..|items|] == items;
    var u := Units(items);
    if items != [] {
      assert ToMoney(Parsed(Finite(u, PLACES))) == Ok(Finite(u, PLACES)) by {
        HalfUpScale(u, 1, Pow10(PLACES));
        assert 1 * Pow10(PLACES) == Pow10(PLACES);
        assert HalfUp(u, 1) == u;
      }
    }
  }

  // ------------------------------------------------------------ terms of any scale

  predicate ScalesUpTo(items: seq<Decimal>, s: nat) {
    forall i :: 0 <= i < |items| ==> items[i].Finite? && items[i].scale <= s
  }

  /** The exact mathematical sum, in units of 10^-s. */
  function ScaledSum(items: seq<Decimal>, s: nat): int
    requires ScalesUpTo(items, s)
  {
    if items == [] then 0
    else ScaledSum(items[..|items| - 1], s) + items[|items| - 1].coef * Pow10(s - items[|items| - 1].scale)
  }

  predicate FitsContext(items: seq<Decimal>, s: nat)
    requires ScalesUpTo(items, s)
  {
    forall i :: 0 <= i <= |items| ==> Abs(ScaledSum(items[..i], s)) < CONTEXT_LIMIT
  }

  /** d is the number n / 10^s. */
  predicate Represents(d: Decimal, n: int, s: nat) { d.Finite? && d.scale <= s && d.coef * Pow10(s - d.scale) == n }

  /** Inside the context adding two numbers of different scale is exact. */
  lemma PlusExact(a: Decimal, x: int, b: Decimal, y: int, s: nat)
    requires Represents(a, x, s) && Represents(b, y, s) && Abs(x + y) < CONTEXT_LIMIT
    ensures Plus(a, b).Ok? && Represents(Plus(a, b).value, x + y, s)
  {
    var m := if a.scale >= b.scale then a.scale else b.scale;
    var p, q, t := Pow10(m - a.scale), Pow10(m - b.scale), Pow10(s - m);
    PowSum(m - a.scale, s - m);
    PowSum(m - b.scale, s - m);
    var exact := a.coef * p + b.coef * q;
    Regrouped(a.coef, p, b.coef, q, t);
    SmallerFactor(exact, t);
  }

  lemma Regrouped(a: int, p: int, b: int, q: int, t: int)
    ensures (a * p + b * q) * t == a * (t * p) + b * (t * q)
  {
    assert a * p * t == a * (t * p);
    assert b * q * t == b * (t * q);
  }

  lemma SmallerFactor(x: int, t: int)
    requires t >= 1
    ensures Abs(x) <= Abs(x * t)
  {
  }

  /** While the exact sums fit, the running total is the exact sum, whatever scales are mixed. */
  lemma {:induction false} RunningExactAnyScale(items: seq<Decimal>, s: nat)
    requires ScalesUpTo(items, s) && FitsContext(items, s)
    ensures Running(items).Ok? && Represents(Running(items).value, ScaledSum(items, s), s)
  {
    if items != [] {
      var front, last := items[..|items| - 1], items[|items| - 1];
      assert forall i :: 0 <= i <= |front| ==> front[..i] == items[..i];
      RunningExactAnyScale(front, s);
      assert items[..|items|] == items;
      PlusExact(Running(front).value, ScaledSum(front, s), last, last.coef * Pow10(s - last.scale), s);
    }
  }

  /** Then the result is the exact sum, rounded once. */
  lemma MoneySumAnyScale(items: seq<Decimal>, s: nat)
    requires ScalesUpTo(items, s) && FitsContext(items, s)
    ensures SumOf(items) == ToMoney(Parsed(Finite(ScaledSum(items, s), s)))
  {
    RunningExactAnyScale(items, s);
    SameMoney(Running(items).value, ScaledSum(items, s), s);
  }

  /** money() depends on the number alone, not on the scale it is written with. */
  lemma SameMoney(d: Decimal, n: int, s: nat)
    requires Represents(d, n, s)
    ensures ToMoney(Parsed(d)) == ToMoney(Parsed(Finite(n, s)))
  {
    var p, m, t := Pow10(PLACES), Pow10(d.scale), Pow10(s - d.scale);
    PowSum(d.scale, s - d.scale);
    assert m * t == Pow10(s);
    SwapFactors(d.coef, p, t);
    HalfUpScale(d.coef * p, m, t);
    assert Quantized(d, PLACES) == HalfUp(d.coef * p, m);
    assert Quantized(Finite(n, s), PLACES) == HalfUp(n * p, Pow10(s));
  }

  lemma SwapFactors(c: int, p: int, t: int)
    ensures c * p * t == c * t * p
  {
  }

  lemma {:induction false} DigitsBound(n: nat)
    ensures n < Pow10(Digits(n))
    ensures n >= 10 ==> n >= Pow10(Digits(n) - 1)
  {
    assert Pow10(1) == 10 * Pow10(0);
    if n >= 10 {
      DigitsBound(n / 10);
      var p := Pow10(Digits(n / 10));
      if n / 10 >= 10 { assert n / 10 >= Pow10(Digits(n / 10) - 1); }
    }
  }

  /** Outside it an addition keeps 28 significant digits: the sum moves by at most half a unit of the last one kept, and
      a tie goes to the even digit. */
  lemma ContextRounds(c: int)
    requires Abs(c) >= CONTEXT_LIMIT
    ensures var step := Pow10(if Digits(Abs(c)) > 28 then Digits(Abs(c)) - 28 else 0);
            var r := InContext(c);
            && Abs(c) < Pow10(Digits(Abs(c))) && Abs(c) >= Pow10(Digits(Abs(c)) - 1)
            && r == HalfEven(c, step) * step
            && -step <= 2 * (r - c) <= step
            && (2 * (r - c) in {step, -step} ==> HalfEven(c, step) % 2 == 0)
  {
    DigitsBound(Abs(c));
    HalfEvenNearest(c, Pow10(if Digits(Abs(c)) > 28 then Digits(Abs(c)) - 28 else 0));
  }

  lemma HalfEvenNearest(c: int, m: int)
    requires m > 0
    ensures -m <= 2 * (HalfEven(c, m) * m - c) <= m
    ensures 2 * (HalfEven(c, m) * m - c) in {m, -m} ==> HalfEven(c, m) % 2 == 0
  {
    var q := c / m;
    assert c == q * m + c % m;
    assert (q + 1) * m == q * m + m;
  }

  // ------------------------------------------------------------ column values

  /** Up to 10^9 NUMERIC(19,4) terms never leave the context. */
  lemma ColumnsStayInContext(items: seq<Decimal>)
    requires FourPlaces(items) && |items| <= 1000000000
    requires forall i :: 0 <= i < |items| ==> Abs(items[i].coef) < COLUMN_LIMIT
    ensures StaysInContext(items)
  {
    forall i | 0 <= i <= |items| ensures Abs(Units(items[..i])) < CONTEXT_LIMIT {
      UnitsBounded(items[..i]);
    }
  }

  lemma {:induction false} UnitsBounded(items: seq<Decimal>)
    requires FourPlaces(items)
    requires forall i :: 0 <= i < |items| ==> Abs(items[i].coef) < COLUMN_LIMIT
    ensures Abs(Units(items)) <= |items| * (COLUMN_LIMIT - 1)
  {
    if items != [] {
      UnitsBounded(items[..|items| - 1]);
    }
  }

  lemma {:induction false} UnitsConcat(a: seq<Decimal>, b: seq<Decimal>)
    requires FourPlaces(a) && FourPlaces(b)
    ensures FourPlaces(a + b) && Units(a + b) == Units(a) + Units(b)
  {
    if b == [] {
      assert a + b == a;
    } else {
      UnitsConcat(a, b[..|b| - 1]);
      assert (a + b)[..|a + b| - 1] == a + b[..|b| - 1];
    }
  }

  function Without(items: seq<Decimal>, i: nat): seq<Decimal>
    requires i < |items|
  {
    items[..i] + items[i + 1..]
  }

  lemma UnitsOfOne(x: Decimal)
    requires x.Finite? && x.scale == PLACES
    ensures FourPlaces([x]) && Units([x]) == x.coef
  {
    assert [x][..0] == [];
  }

  lemma UnitsWithout(items: seq<Decimal>, i: nat)
    requires FourPlaces(items) && i < |items|
    ensures FourPlaces(Without(items, i))
    ensures Units(items) == Units(Without(items, i)) + items[i].coef
  {
    var front, x, b := items[..i], items[i], items[i + 1..];
    assert items == (front + [x]) + b;
    UnitsOfOne(x);
    assert FourPlaces(front) && FourPlaces(b);
    UnitsConcat(front, [x]);
    UnitsConcat(front + [x], b);
    UnitsConcat(front, b);
  }

  lemma WithoutIsRest(items: seq<Decimal>, i: nat)
    requires i < |items|
    ensures multiset(Without(items, i)) == multiset(items) - multiset{items[i]}
  {
    assert items == items[..i] + [items[i]] + items[i + 1..];
  }

  lemma {:induction false} UnitsPermutation(a: seq<Decimal>, b: seq<Decimal>)
    requires FourPlaces(a) && FourPlaces(b) && multiset(a) == multiset(b)
    ensures Units(a) == Units(b)
  {
    if a == [] {
      assert |b| == |multiset(b)| == 0;
    } else {
      var front, last := a[..|a| - 1], a[|a| - 1];
      assert a == front + [last];
      assert last in multiset(b);
      var i :| 0 <= i < |b| && b[i] == last;
      UnitsWithout(b, i);
      WithoutIsRest(b, i);
      assert multiset(front) == multiset(a) - multiset{last};
      UnitsPermutation(front, Without(b, i));
    }
  }

  predicate ColumnTerms(items: seq<Decimal>) {
    && FourPlaces(items)
    && |items| <= 1000000000
    && forall i :: 0 <= i < |items| ==> Abs(items[i].coef) < COLUMN_LIMIT
  }

  /** money_sum of column values does not depend on their order. */
  lemma MoneySumOrderIndependent(a: seq<Decimal>, b: seq<Decimal>)
    requires ColumnTerms(a) && ColumnTerms(b) && multiset(a) == multiset(b)
    ensures SumOf(a) == SumOf(b)
  {
    ColumnsStayInContext(a);
    ColumnsStayInContext(b);
    MoneySumExact(a);
    MoneySumExact(b);
    UnitsPermutation(a, b);
  }

  /** Summing two batches and then their subtotals gives the sum of the whole. */
  lemma MoneySumSplits(a: seq<Decimal>, b: seq<Decimal>)
    requires ColumnTerms(a) && ColumnTerms(b) && ColumnTerms(a + b)
    ensures SumOf(a).Ok? && SumOf(b).Ok?
    ensures var parts := [SumOf(a).value, SumOf(b).value];
            AllFinite(parts) && SumOf(parts) == SumOf(a + b)
  {
    ColumnsStayInContext(a);
    ColumnsStayInContext(b);
    ColumnsStayInContext(a + b);
    MoneySumExact(a);
    MoneySumExact(b);
    MoneySumExact(a + b);
    UnitsConcat(a, b);
    assert a[..|a|] == a && (a + b)[..|a + b|] == a + b;
    TwoTerms(Units(a), Units(b));
  }

  lemma TwoTerms(x: int, y: int)
    requires Abs(x) < CONTEXT_LIMIT && Abs(x + y) < CONTEXT_LIMIT
    ensures var parts := [Finite(x, PLACES), Finite(y, PLACES)];
            SumOf(parts) == Ok(Finite(x + y, PLACES))
  {
    var a, b := Finite(x, PLACES), Finite(y, PLACES);
    var parts := [a, b];
    assert parts[..0] == [] && parts[..1] == [a] && parts[..2] == parts && [a][..0] == [];
    assert Units(parts[..0]) == 0 && Units(parts[..1]) == x && Units(parts[..2]) == x + y;
    assert StaysInContext(parts);
    MoneySumExact(parts);
  }

  // ------------------------------------------------------------ rounding tolerance

  function Total(xs: seq<int>): int {
    if xs == [] then 0 else xs[0] + Total(xs[1..])
  }

  /** Every line rounded to four places, given in units of 10^-4; m is the number of finer units in one. */
  function Rounded(xs: seq<int>, m: int): (rs: seq<int>)
    requires m > 0
    ensures |rs| == |xs|
  {
    if xs == [] then [] else [HalfUp(xs[0], m)] + Rounded(xs[1..], m)
  }

  /** Each element of Rounded is what money() stores for that line. */
  lemma {:induction false} RoundedIsMoney(xs: seq<int>, k: nat, i: nat)
    requires i < |xs| && ToMoney(Parsed(Finite(xs[i], PLACES + k))).Ok?
    ensures ToMoney(Parsed(Finite(xs[i], PLACES + k))) == Ok(Finite(Rounded(xs, Pow10(k))[i], PLACES))
  {
    RoundedAt(xs, Pow10(k), i);
    PowSum(PLACES, k);
    HalfUpScale(xs[i], Pow10(k), Pow10(PLACES));
  }

  lemma {:induction false} RoundedAt(xs: seq<int>, m: int, i: nat)
    requires m > 0 && i < |xs|
    ensures Rounded(xs, m)[i] == HalfUp(xs[i], m)
  {
    if i > 0 {
      RoundedAt(xs[1..], m, i - 1);
    }
  }

  lemma {:induction false} PowSum(a: nat, b: nat)
    ensures Pow10(a + b) == Pow10(b) * Pow10(a)
  {
    if a > 0 {
      PowSum(a - 1, b);
    }
  }

  /** The accumulated rounding error, and what makes it extreme: every line an exact tie of one sign. */
  lemma {:induction false} ErrorBound(xs: seq<int>, m: int)
    requires m > 0
    ensures var e := 2 * (Total(Rounded(xs, m)) * m - Total(xs));
            && -(|xs| * m) <= e <= |xs| * m
            && (e == |xs| * m && xs != [] ==> Total(xs) > 0)
            && (e == -(|xs| * m) && xs != [] ==> Total(xs) < 0)
  {
    if xs != [] {
      var r, rest := HalfUp(xs[0], m), Rounded(xs[1..], m);
      HalfUpNearest(xs[0], m);
      ErrorBound(xs[1..], m);
      assert Rounded(xs, m) == [r] + rest;
      ErrorStep(r, xs[0], Total(rest), Total(xs[1..]), |xs[1..]|, m);
    }
  }

  lemma ErrorStep(r: int, x: int, rest: int, sum: int, n: nat, m: int)
    requires m > 0 && NearestAway(r, x, m)
    requires -(n * m) <= 2 * (rest * m - sum) <= n * m
    requires 2 * (rest * m - sum) == n * m && n > 0 ==> sum > 0
    requires 2 * (rest * m - sum) == -(n * m) && n > 0 ==> sum < 0
    requires n == 0 ==> sum == 0
    ensures var e := 2 * ((r + rest) * m - (x + sum));
            && -((n + 1) * m) <= e <= (n + 1) * m
            && (e == (n + 1) * m ==> x + sum > 0)
            && (e == -((n + 1) * m) ==> x + sum < 0)
  {
  }

  /** Whatever the lines of a balanced n-line entry, rounding each of them leaves the entry within tolerance. */
  ghost predicate ToleranceSuffices(n: nat) {
    forall k: nat, xs: seq<int> :: |xs| == n && Total(xs) == 0 ==>
      -TOLERANCE_UNITS <= Total(Rounded(xs, Pow10(k))) <= TOLERANCE_UNITS
  }

  lemma TwelveLinesFit(n: nat, k: nat, xs: seq<int>)
    requires n <= 12 && |xs| == n && Total(xs) == 0
    ensures -TOLERANCE_UNITS <= Total(Rounded(xs, Pow10(k))) <= TOLERANCE_UNITS
  {
    var m := Pow10(k);
    var t := Total(Rounded(xs, m));
    ErrorBound(xs, m);
    MulMono(n, 12, m);
    if t >= 6 {
      MulMono(6, t, m);
    }
    if t <= -6 {
      MulMono(t, -6, m);
    }
  }

  function Repeat(x: int, n: nat): (xs: seq<int>)
    ensures |xs| == n
  {
    if n == 0 then [] else [x] + Repeat(x, n - 1)
  }

  lemma {:induction false} RepeatTotals(x: int, n: nat, tail: seq<int>, m: int)
    requires m > 0
    ensures Total(Repeat(x, n) + tail) == n * x + Total(tail)
    ensures Total(Rounded(Repeat(x, n) + tail, m)) == n * HalfUp(x, m) + Total(Rounded(tail, m))
  {
    if n == 0 {
      assert Repeat(x, n) + tail == tail;
    } else {
      var xs := Repeat(x, n) + tail;
      assert xs[0] == x && xs[1..] == Repeat(x, n - 1) + tail;
      RepeatTotals(x, n - 1, tail, m);
      assert Rounded(xs, m) == [HalfUp(x, m)] + Rounded(xs[1..], m);
      assert n * x == x + (n - 1) * x;
      assert n * HalfUp(x, m) == HalfUp(x, m) + (n - 1) * HalfUp(x, m);
    }
  }

  /** Thirteen lines already break it: twelve of 0.000051 against one of -0.000612, padded with zeros. */
  lemma ThirteenLinesOverflow(n: nat)
    requires n >= 13
    ensures !ToleranceSuffices(n)
  {
    var zeros := Repeat(0, n - 13);
    var tail := [-612] + zeros;
    var xs := Repeat(51, 12) + tail;
    var m := Pow10(2);
    assert m == 100 by { assert Pow10(1) == 10; }
    assert zeros + [] == zeros;
    RepeatTotals(0, n - 13, [], m);
    assert tail[0] == -612 && tail[1..] == zeros;
    assert Rounded(tail, m) == [HalfUp(-612, m)] + Rounded(zeros, m);
    assert HalfUp(-612, 100) == -6 && HalfUp(51, 100) == 1 && HalfUp(0, 100) == 0;
    RepeatTotals(51, 12, tail, m);
    assert |xs| == n && Total(xs) == 0 && Total(Rounded(xs, Pow10(2))) == 6;
  }

  /** The documented tolerance covers line-by-line rounding exactly for entries of at most twelve lines. */
  lemma ToleranceThreshold(n: nat)
    ensures ToleranceSuffices(n) <==> n <= 12
  {
    if n <= 12 {
      forall k: nat, xs: seq<int> | |xs| == n && Total(xs) == 0
        ensures -TOLERANCE_UNITS <= Total(Rounded(xs, Pow10(k))) <= TOLERANCE_UNITS
      {
        TwelveLinesFit(n, k, xs);
      }
    } else {
      ThirteenLinesOverflow(n);
    }
  }
}
