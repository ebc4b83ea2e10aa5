/** SQL aggregates over rows: SUM with a filter, GROUP BY, and what regrouping conserves. */
module Grouping {

  /** SUM(val) FILTER (WHERE keep), with COALESCE(..., 0) for no rows. */
  function SumIf<T>(rows: seq<T>, keep: T -> bool, val: T -> int): int
  {
    if rows == [] then 0
    else (if keep(rows[0]) then val(rows[0]) else 0) + SumIf(rows[1..], keep, val)
  }

  function One<T>(): T -> int { (row: T) => 1 }

  /** COUNT(*) FILTER (WHERE keep). */
  function CountIf<T>(rows: seq<T>, keep: T -> bool): (n: nat)
    ensures n == SumIf(rows, keep, One())
  {
    if rows == [] then 0
    else (if keep(rows[0]) then 1 else 0) + CountIf(rows[1..], keep)
  }

  /** The same sum inside one group of a GROUP BY. */
  function GroupSum<T, K(==)>(rows: seq<T>, key: T -> K, k: K, keep: T -> bool, val: T -> int): int
  {
    if rows == [] then 0 else
    var head := if keep(rows[0]) && key(rows[0]) == k then val(rows[0]) else 0;
    head + GroupSum(rows[1..], key, k, keep, val)
  }

  function GroupCount<T, K(==)>(rows: seq<T>, key: T -> K, k: K, keep: T -> bool): (n: nat)
    ensures n == GroupSum(rows, key, k, keep, One())
  {
    if rows == [] then 0
    else (if keep(rows[0]) && key(rows[0]) == k then 1 else 0) + GroupCount(rows[1..], key, k, keep)
  }

  /** The groups' sums added up over a list of group keys. */
  function GroupSums<T, K(==)>(rows: seq<T>, key: T -> K, ks: seq<K>, keep: T -> bool, val: T -> int): int
  {
    if ks == [] then 0
    else GroupSum(rows, key, ks[0], keep, val) + GroupSums(rows, key, ks[1..], keep, val)
  }

  lemma GroupSumsCons<T, K>(rows: seq<T>, key: T -> K, k: K, ks: seq<K>, keep: T -> bool, val: T -> int)
    ensures GroupSums(rows, key, [k] + ks, keep, val) ==
            GroupSum(rows, key, k, keep, val) + GroupSums(rows, key, ks, keep, val)
  {
  }

  /** A plain sum over a list of keys. */
  function SumOver<K>(ks: seq<K>, val: K -> int): int
  {
    if ks == [] then 0 else val(ks[0]) + SumOver(ks[1..], val)
  }

  predicate Distinct<K(==)>(ks: seq<K>) {
    forall i, j :: 0 <= i < j < |ks| ==> ks[i] != ks[j]
  }

  /** ks lists the elements of s, each once. */
  predicate Enumerates<K(==)>(ks: seq<K>, s: set<K>) {
    Distinct(ks) && (forall k :: k in ks ==> k in s) && (forall k :: k in s ==> k in ks)
  }

  /** Every finite set of keys can be listed. */
  lemma {:induction false} Listing<K>(s: set<K>) returns (ks: seq<K>)
    ensures Enumerates(ks, s)
  {
    if s == {} {
      ks := [];
    } else {
      var k :| k in s;
      var rest := Listing(s - {k});
      ks := [k] + rest;
    }
  }

  function SumInKeys<T, K(==)>(rows: seq<T>, key: T -> K, ks: seq<K>, keep: T -> bool, val: T -> int): int
  {
    if rows == [] then 0 else
    var head := if keep(rows[0]) && key(rows[0]) in ks then val(rows[0]) else 0;
    head + SumInKeys(rows[1..], key, ks, keep, val)
  }

  /** Exchanging the two sums: groups first or rows first. */
  lemma {:induction false} Regroup<T, K>(rows: seq<T>, key: T -> K, ks: seq<K>, keep: T -> bool, val: T -> int)
    requires Distinct(ks)
    ensures GroupSums(rows, key, ks, keep, val) == SumInKeys(rows, key, ks, keep, val)
  {
    if ks == [] {
      NoKeys(rows, key, keep, val);
    } else {
      Regroup(rows, key, ks[1..], keep, val);
      PeelKey(rows, key, ks, keep, val);
    }
  }

  lemma {:induction false} NoKeys<T, K>(rows: seq<T>, key: T -> K, keep: T -> bool, val: T -> int)
    ensures SumInKeys(rows, key, [], keep, val) == 0
  {
    if rows != [] { NoKeys(rows[1..], key, keep, val); }
  }

  lemma {:induction false} PeelKey<T, K>(rows: seq<T>, key: T -> K, ks: seq<K>, keep: T -> bool, val: T -> int)
    requires Distinct(ks) && ks != []
    ensures SumInKeys(rows, key, ks, keep, val) ==
            GroupSum(rows, key, ks[0], keep, val) + SumInKeys(rows, key, ks[1..], keep, val)
  {
    if rows != [] {
      PeelKey(rows[1..], key, ks, keep, val);
      assert ks[0] !in ks[1..];
      assert forall k :: k in ks <==> k == ks[0] || k in ks[1..];
    }
  }

  /** When the listed groups cover every kept row, the group sums add up to the whole. */
  lemma GroupsCoverAll<T, K>(rows: seq<T>, key: T -> K, ks: seq<K>, keep: T -> bool, val: T -> int)
    requires Distinct(ks)
    requires forall i :: 0 <= i < |rows| && keep(rows[i]) && val(rows[i]) != 0 ==> key(rows[i]) in ks
    ensures GroupSums(rows, key, ks, keep, val) == SumIf(rows, keep, val)
  {
    Regroup(rows, key, ks, keep, val);
    AllInKeys(rows, key, ks, keep, val);
  }

  lemma {:induction false} AllInKeys<T, K>(rows: seq<T>, key: T -> K, ks: seq<K>, keep: T -> bool, val: T -> int)
    requires forall i :: 0 <= i < |rows| && keep(rows[i]) && val(rows[i]) != 0 ==> key(rows[i]) in ks
    ensures SumInKeys(rows, key, ks, keep, val) == SumIf(rows, keep, val)
  {
    if rows != [] {
      assert keep(rows[0]) && val(rows[0]) != 0 ==> key(rows[0]) in ks;
      AllInKeys(rows[1..], key, ks, keep, val);
    }
  }

  /** A sum splits over a filter that is the disjoint union of two. */
  lemma {:induction false} SumSplit<T>(rows: seq<T>, whole: T -> bool, a: T -> bool, b: T -> bool, val: T -> int)
    requires forall i :: 0 <= i < |rows| ==>
               (whole(rows[i]) <==> a(rows[i]) || b(rows[i])) && !(a(rows[i]) && b(rows[i]))
    ensures SumIf(rows, whole, val) == SumIf(rows, a, val) + SumIf(rows, b, val)
  {
    if rows != [] {
      SumSplit(rows[1..], whole, a, b, val);
    }
  }

  /** Filters and values need only agree on the rows at hand. */
  lemma {:induction false} SumAgree<T>(rows: seq<T>, p: T -> bool, v: T -> int, q: T -> bool, w: T -> int)
    requires forall i :: 0 <= i < |rows| ==>
               (if p(rows[i]) then v(rows[i]) else 0) == (if q(rows[i]) then w(rows[i]) else 0)
    ensures SumIf(rows, p, v) == SumIf(rows, q, w)
  {
    if rows != [] {
      SumAgree(rows[1..], p, v, q, w);
    }
  }

  lemma {:induction false} CountMonotone<T>(rows: seq<T>, small: T -> bool, large: T -> bool)
    requires forall i :: 0 <= i < |rows| && small(rows[i]) ==> large(rows[i])
    ensures CountIf(rows, small) <= CountIf(rows, large)
  {
    if rows != [] {
      CountMonotone(rows[1..], small, large);
    }
  }

  lemma {:induction false} SumOverGroups<T, K>(rows: seq<T>, key: T -> K, ks: seq<K>, keep: T -> bool, val: T -> int,
                                               each: K -> int)
    requires forall k :: k in ks ==> each(k) == GroupSum(rows, key, k, keep, val)
    ensures SumOver(ks, each) == GroupSums(rows, key, ks, keep, val)
  {
    if ks != [] {
      assert ks[0] in ks;
      assert forall k :: k in ks[1..] ==> k in ks;
      SumOverGroups(rows, key, ks[1..], keep, val, each);
    }
  }

  lemma {:induction false} SumAppend<T>(a: seq<T>, b: seq<T>, keep: T -> bool, val: T -> int)
    ensures SumIf(a + b, keep, val) == SumIf(a, keep, val) + SumIf(b, keep, val)
  {
    if a == [] {
      assert a + b == b;
    } else {
      assert (a + b)[0] == a[0] && (a + b)[1..] == a[1..] + b;
      SumAppend(a[1..], b, keep, val);
    }
  }

  /** A coarse group is the union of the fine groups listed for it. */
  lemma Coarsen<T, K, L>(rows: seq<T>, fine: T -> K, ks: seq<K>, coarse: T -> L, l: L, keep: T -> bool, val: T -> int)
    requires Distinct(ks)
    requires forall i :: 0 <= i < |rows| && keep(rows[i]) ==> (coarse(rows[i]) == l <==> fine(rows[i]) in ks)
    ensures GroupSum(rows, coarse, l, keep, val) == GroupSums(rows, fine, ks, keep, val)
  {
    Regroup(rows, fine, ks, keep, val);
    CoarseIsInKeys(rows, fine, ks, coarse, l, keep, val);
  }

  lemma {:induction false} CoarseIsInKeys<T, K, L>(
      rows: seq<T>, fine: T -> K, ks: seq<K>, coarse: T -> L, l: L, keep: T -> bool, val: T -> int)
    requires forall i :: 0 <= i < |rows| && keep(rows[i]) ==> (coarse(rows[i]) == l <==> fine(rows[i]) in ks)
    ensures GroupSum(rows, coarse, l, keep, val) == SumInKeys(rows, fine, ks, keep, val)
  {
    if rows != [] {
      CoarseIsInKeys(rows[1..], fine, ks, coarse, l, keep, val);
    }
  }

  lemma {:induction false} SumNonNegative<T, K>(rows: seq<T>, key: T -> K, k: K, keep: T -> bool, val: T -> int)
    requires forall i :: 0 <= i < |rows| ==> val(rows[i]) >= 0
    ensures GroupSum(rows, key, k, keep, val) >= 0
  {
    if rows != [] {
      SumNonNegative(rows[1..], key, k, keep, val);
    }
  }

  // ------------------------------------------------------------ what the aggregates mean

  /** The number of positions whose row satisfies p. */
  function CountWhere<T(!new)>(rows: seq<T>, p: T -> bool): nat { |set i: nat | i < |rows| && p(rows[i])| }

  lemma {:induction false} CountIsCardinality<T(!new)>(rows: seq<T>, keep: T -> bool, p: T -> bool)
    requires forall i :: 0 <= i < |rows| ==> (keep(rows[i]) <==> p(rows[i]))
    ensures CountIf(rows, keep) == CountWhere(rows, p)
  {
    if rows == [] {
      assert (set i: nat | i < |rows| && p(rows[i])) == {};
    } else {
      var n := |rows| - 1;
      var front := rows[..n];
      CountIsCardinality(front, keep, p);
      SumAppend(front, [rows[n]], keep, One());
      assert rows == front + [rows[n]];
      OneMorePosition(rows, p);
    }
  }

  lemma OneMorePosition<T(!new)>(rows: seq<T>, p: T -> bool)
    requires rows != []
    ensures CountWhere(rows, p) == CountWhere(rows[..|rows| - 1], p) + if p(rows[|rows| - 1]) then 1 else 0
  {
    var n := |rows| - 1;
    var front := rows[..n];
    var before, all := (set i: nat | i < |front| && p(front[i])), (set i: nat | i < |rows| && p(rows[i]));
    assert all == before + (if p(rows[n]) then {n} else {});
  }

  lemma GroupCountIsCardinality<T(!new), K>(rows: seq<T>, key: T -> K, k: K, keep: T -> bool, p: T -> bool)
    requires forall i :: 0 <= i < |rows| ==> (keep(rows[i]) && key(rows[i]) == k <==> p(rows[i]))
    ensures GroupCount(rows, key, k, keep) == CountWhere(rows, p)
  {
    GroupSumIsSumIf(rows, key, k, keep, One(), p);
    CountIsCardinality(rows, p, p);
  }

  lemma {:induction false} GroupSumIsSumIf<T, K>(rows: seq<T>, key: T -> K, k: K, keep: T -> bool, val: T -> int, p: T -> bool)
    requires forall i :: 0 <= i < |rows| ==> (keep(rows[i]) && key(rows[i]) == k <==> p(rows[i]))
    ensures GroupSum(rows, key, k, keep, val) == SumIf(rows, p, val)
  {
    if rows != [] { GroupSumIsSumIf(rows[1..], key, k, keep, val, p); }
  }

  /** A filtered sum as a plain sum over all rows. */
  lemma {:induction false} SumIfIsSum<T>(rows: seq<T>, keep: T -> bool, val: T -> int, each: T -> int)
    requires forall i :: 0 <= i < |rows| ==> each(rows[i]) == if keep(rows[i]) then val(rows[i]) else 0
    ensures SumIf(rows, keep, val) == SumOver(rows, each)
  {
    if rows != [] { SumIfIsSum(rows[1..], keep, val, each); }
  }

  lemma {:induction false} GroupSumIsSum<T, K>(rows: seq<T>, key: T -> K, k: K, keep: T -> bool, val: T -> int, each: T -> int)
    requires forall i :: 0 <= i < |rows| ==> each(rows[i]) == if keep(rows[i]) && key(rows[i]) == k then val(rows[i]) else 0
    ensures GroupSum(rows, key, k, keep, val) == SumOver(rows, each)
  {
    if rows != [] { GroupSumIsSum(rows[1..], key, k, keep, val, each); }
  }

  lemma {:induction false} GroupSumAppend<T, K>(a: seq<T>, b: seq<T>, key: T -> K, k: K, keep: T -> bool, val: T -> int)
    ensures GroupSum(a + b, key, k, keep, val) == GroupSum(a, key, k, keep, val) + GroupSum(b, key, k, keep, val)
  {
    if a == [] {
      assert a + b == b;
    } else {
      assert (a + b)[0] == a[0] && (a + b)[1..] == a[1..] + b;
      GroupSumAppend(a[1..], b, key, k, keep, val);
    }
  }
}
