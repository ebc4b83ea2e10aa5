/** Sums of amounts that are each rounded before they are added. */
module RoundedSums {
  import opened Grouping
  import Money

  function Values<K>(ks: seq<K>, fine: K -> int): seq<int> {
    if ks == [] then [] else [fine(ks[0])] + Values(ks[1..], fine)
  }

  lemma {:induction false} ValuesTotal<K>(ks: seq<K>, fine: K -> int)
    ensures |Values(ks, fine)| == |ks| && Money.Total(Values(ks, fine)) == SumOver(ks, fine)
  {
    if ks != [] { ValuesTotal(ks[1..], fine); }
  }

  lemma {:induction false} RoundedTotal<K>(ks: seq<K>, fine: K -> int, stored: K -> int, m: int)
    requires m > 0 && forall k :: k in ks ==> stored(k) == Money.HalfUp(fine(k), m)
    ensures SumOver(ks, stored) == Money.Total(Money.Rounded(Values(ks, fine), m))
  {
    if ks != [] {
      assert ks[0] in ks;
      assert forall k :: k in ks[1..] ==> k in ks;
      RoundedTotal(ks[1..], fine, stored, m);
      assert Values(ks, fine)[1..] == Values(ks[1..], fine);
    }
  }

  /** Half a unit per key bounds what rounding each amount does to the sum. */
  lemma SumWithin<K>(ks: seq<K>, fine: K -> int, stored: K -> int, m: int)
    requires m > 0 && forall k :: k in ks ==> stored(k) == Money.HalfUp(fine(k), m)
    ensures -(|ks| * m) <= 2 * (SumOver(ks, stored) * m - SumOver(ks, fine)) <= |ks| * m
  {
    ValuesTotal(ks, fine);
    RoundedTotal(ks, fine, stored, m);
    Money.ErrorBound(Values(ks, fine), m);
  }

  lemma WholeIsExact(x: int, m: int)
    requires m > 0
    ensures Money.HalfUp(x, m) * m == x <==> x % m == 0
  {
    if x % m == 0 {
      var q := x / m;
      assert x == q * m;
      Money.HalfUpNearest(q * m, m);
      Money.NearestUnique(Money.HalfUp(q * m, m), q, q * m, m);
    } else {
      MultipleLeavesNothing(Money.HalfUp(x, m), m);
    }
  }

  lemma MultipleLeavesNothing(q: int, m: int)
    requires m > 0
    ensures (q * m) % m == 0
  {
    var x := q * m;
    var d := q - x / m;
    assert x == (x / m) * m + x % m;
    assert d * m == x % m;
    if d >= 1 { Money.MulMono(1, d, m); }
    if d <= -1 { Money.MulMono(d, -1, m); }
  }

  /** Whole amounts lose nothing. */
  lemma SumExact<K>(ks: seq<K>, fine: K -> int, stored: K -> int, m: int)
    requires m > 0 && forall k :: k in ks ==> stored(k) == Money.HalfUp(fine(k), m)
    requires forall k :: k in ks ==> fine(k) % m == 0
    ensures SumOver(ks, stored) * m == SumOver(ks, fine)
  {
    forall k | k in ks ensures stored(k) * m == fine(k) { WholeIsExact(fine(k), m); }
    SumScaled(ks, fine, stored, m);
  }

  lemma {:induction false} SumScaled<K>(ks: seq<K>, fine: K -> int, stored: K -> int, m: int)
    requires forall k :: k in ks ==> stored(k) * m == fine(k)
    ensures SumOver(ks, stored) * m == SumOver(ks, fine)
  {
    if ks != [] {
      assert ks[0] in ks;
      assert forall k :: k in ks[1..] ==> k in ks;
      SumScaled(ks[1..], fine, stored, m);
      Distribute(stored(ks[0]), SumOver(ks[1..], stored), m);
    }
  }

  lemma Distribute(a: int, b: int, m: int)
    ensures (a + b) * m == a * m + b * m
  {
  }

  /** Rounding each amount or rounding their sum: at most (k + 1) / 2 units apart for k amounts. */
  lemma TwoRoundingsWithin<K>(ks: seq<K>, fine: K -> int, stored: K -> int, m: int)
    requires m > 0 && forall k :: k in ks ==> stored(k) == Money.HalfUp(fine(k), m)
    ensures -(|ks| + 1) <= 2 * (SumOver(ks, stored) - Money.HalfUp(SumOver(ks, fine), m)) <= |ks| + 1
  {
    SumWithin(ks, fine, stored, m);
    Money.HalfUpNearest(SumOver(ks, fine), m);
    Apart(SumOver(ks, stored), Money.HalfUp(SumOver(ks, fine), m), SumOver(ks, fine), |ks|, m);
  }

  lemma Apart(a: int, r: int, s: int, k: int, m: int)
    requires m > 0 && -(k * m) <= 2 * (a * m - s) <= k * m && -m <= 2 * (r * m - s) <= m
    ensures -(k + 1) <= 2 * (a - r) <= k + 1
  {
    Distribute(k, 1, m);
    Distribute(a, -r, m);
    Distribute(a - r, a - r, m);
    assert (-r) * m == -(r * m);
    Cancel(2 * (a - r), k + 1, m);
  }

  lemma Cancel(x: int, k: int, m: int)
    requires m > 0 && -(k * m) <= x * m <= k * m
    ensures -k <= x <= k
  {
    if x > k {
      Distribute(k, 1, m);
      Money.MulMono(k + 1, x, m);
    } else if x < -k {
      Distribute(-k, -1, m);
      assert (-k) * m == -(k * m);
      Money.MulMono(x, -k - 1, m);
    }
  }

  /** They agree when every amount is whole, or when there is at most one. */
  lemma TwoRoundingsAgree<K>(ks: seq<K>, fine: K -> int, stored: K -> int, m: int)
    requires m > 0 && forall k :: k in ks ==> stored(k) == Money.HalfUp(fine(k), m)
    requires |ks| <= 1 || forall k :: k in ks ==> fine(k) % m == 0
    ensures SumOver(ks, stored) == Money.HalfUp(SumOver(ks, fine), m)
  {
    if |ks| > 1 {
      SumExact(ks, fine, stored, m);
      var a := SumOver(ks, stored);
      Money.HalfUpNearest(a * m, m);
      Money.NearestUnique(Money.HalfUp(a * m, m), a, a * m, m);
    } else if |ks| == 1 {
      assert ks[0] in ks;
    }
  }

  lemma {:induction false} SumOfZeros<K>(ks: seq<K>, f: K -> int)
    requires forall k :: k in ks ==> f(k) == 0
    ensures SumOver(ks, f) == 0
  {
    if ks != [] {
      assert ks[0] in ks;
      assert forall k :: k in ks[1..] ==> k in ks;
      SumOfZeros(ks[1..], f);
    }
  }

  lemma {:induction false} GroupSumWhole<T, K>(rows: seq<T>, key: T -> K, k: K, keep: T -> bool, val: T -> int, m: int)
    requires m > 0 && forall i :: 0 <= i < |rows| ==> val(rows[i]) % m == 0
    ensures GroupSum(rows, key, k, keep, val) % m == 0
  {
    if rows != [] {
      GroupSumWhole(rows[1..], key, k, keep, val, m);
      assert val(rows[0]) % m == 0;
      SumOfWhole(val(rows[0]), GroupSum(rows[1..], key, k, keep, val), m);
    }
  }

  lemma SumOfWhole(a: int, b: int, m: int)
    requires m > 0 && a % m == 0 && b % m == 0
    ensures (a + b) % m == 0
  {
    assert a == (a / m) * m && b == (b / m) * m;
    assert a + b == (a / m + b / m) * m;
    MultipleLeavesNothing(a / m + b / m, m);
  }
}
