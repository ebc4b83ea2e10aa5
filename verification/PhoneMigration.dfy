/** Migration 0014: one UPDATE that makes contacts.phone canonical where that cannot collide. */
module PhoneMigration {
  import opened Phone

  type Table = map<nat, string>

  predicate UniquePhones(t: Table) {
    forall i, j :: i in t && j in t && t[i] == t[j] ==> i == j
  }

  /** Rows whose phone reduces to the same digits as row id's. */
  function CanonicalClass(t: Table, id: nat): set<nat>
    requires id in t
  {
    set other | other in t && DigitsOf(t[other]) == DigitsOf(t[id])
  }

  /** The WHERE clause, with its correlated COUNT(*). */
  predicate Selected(t: Table, id: nat)
    requires id in t
  {
    t[id] != DigitsOf(t[id]) && |CanonicalClass(t, id)| == 1
  }

  predicate IsCanonical(t: Table, id: nat)
    requires id in t
  {
    t[id] == DigitsOf(t[id])
  }

  /** No other row reduces to the same digits. */
  predicate Alone(t: Table, id: nat)
    requires id in t
  {
    forall other :: other in t && DigitsOf(t[other]) == DigitsOf(t[id]) ==> other == id
  }

  lemma AloneMeansCountOne(t: Table, id: nat)
    requires id in t
    ensures Alone(t, id) <==> |CanonicalClass(t, id)| == 1
  {
    var c := CanonicalClass(t, id);
    assert id in c;
    if Alone(t, id) {
      assert c == {id};
    }
    if |c| == 1 {
      forall other | other in t && DigitsOf(t[other]) == DigitsOf(t[id]) ensures other == id {
        assert other in c;
        if other != id { assert {id, other} <= c; SubsetSize({id, other}, c); }
      }
    }
  }

  lemma SubsetSize(a: set<nat>, b: set<nat>)
    requires a <= b
    ensures |a| <= |b|
  {
    assert b == a + (b - a);
  }

  function Upgraded(t: Table): Table {
    map id | id in t :: if Selected(t, id) then DigitsOf(t[id]) else t[id]
  }

  /** The rows visited so far hold their new phone, the others their old one. */
  predicate Partial(before: Table, now: Table, visited: set<nat>) {
    && now.Keys == before.Keys
    && forall id :: id in before ==> now[id] == if id in visited then Upgraded(before)[id] else before[id]
  }

  /** Part-way through, the new value of a selected row is still free. */
  lemma NoOneElseHolds(before: Table, now: Table, visited: set<nat>, id: nat)
    requires id in before && Partial(before, now, visited)
    ensures Selected(before, id) ==> forall other :: other in now && other != id ==> now[other] != DigitsOf(before[id])
  {
    AloneMeansCountOne(before, id);
    if Selected(before, id) {
      forall other | other in now && other != id ensures now[other] != DigitsOf(before[id]) {
        assert DigitsOf(now[other]) == DigitsOf(before[other]);
      }
    }
  }

  function RowsOf(order: seq<nat>): set<nat> {
    if order == [] then {} else RowsOf(order[..|order| - 1]) + {order[|order| - 1]}
  }

  lemma NoneVisited(t: Table)
    ensures Partial(t, t, {})
  {
  }

  lemma OneMoreVisited(before: Table, now: Table, visited: set<nat>, id: nat)
    requires id in before && Partial(before, now, visited)
    ensures var next := if Selected(before, id) then now[id := DigitsOf(before[id])] else now;
            Partial(before, next, visited + {id})
  {
  }

  /** The constraint holds after every single row, whatever has been visited so far. */
  lemma UniqueThroughout(before: Table, now: Table, visited: set<nat>)
    requires UniquePhones(before) && Partial(before, now, visited)
    ensures UniquePhones(now)
  {
    forall i, j | i in now && j in now && now[i] == now[j] ensures i == j {
      assert DigitsOf(now[i]) == DigitsOf(before[i]) && DigitsOf(now[j]) == DigitsOf(before[j]);
      AloneMeansCountOne(before, i);
      AloneMeansCountOne(before, j);
    }
  }

  lemma AllVisited(before: Table, now: Table)
    requires Partial(before, now, before.Keys)
    ensures now == Upgraded(before)
  {
  }

  /** The contacts table under its UNIQUE constraint on phone. */
  class Contacts {
    var phones: Table

    /** Writes one row, or refuses when another row already holds the value. */
    method SetPhone(id: nat, phone: string) returns (ok: bool)
      requires id in phones
      modifies this
      ensures ok <==> forall other :: other in old(phones) && other != id ==> old(phones)[other] != phone
      ensures phones == if ok then old(phones)[id := phone] else old(phones)
    {
      ok := forall other :: other in phones && other != id ==> phones[other] != phone;
      if ok {
        phones := phones[id := phone];
      }
    }

    method VisitRow(snapshot: Table, id: nat, ghost visited: set<nat>) returns (ok: bool)
      requires id in snapshot && Partial(snapshot, phones, visited)
      modifies this
      ensures ok && Partial(snapshot, phones, visited + {id})
    {
      ok := true;
      NoOneElseHolds(snapshot, phones, visited, id);
      OneMoreVisited(snapshot, phones, visited, id);
      if Selected(snapshot, id) {
        ok := SetPhone(id, DigitsOf(snapshot[id]));
      }
    }

    /** Rows are visited in any order; the WHERE clause reads the table as it was when the statement began.
        A refused row would abort the statement, and none ever is. */
    method Upgrade(order: seq<nat>) returns (ok: bool)
      requires RowsOf(order) == phones.Keys
      modifies this
      ensures ok && phones == Upgraded(old(phones))
    {
      var snapshot := phones;
      ok := true;
      NoneVisited(snapshot);
      for i := 0 to |order|
        invariant ok && Partial(snapshot, phones, RowsOf(order[..i]))
      {
        assert order[..i + 1][..i] == order[..i];
        RowsInOrder(order, i);
        ok := VisitRow(snapshot, order[i], RowsOf(order[..i]));
      }
      assert order[..|order|] == order;
      AllVisited(snapshot, phones);
    }
  }

  lemma {:induction false} RowsInOrder(order: seq<nat>, i: nat)
    requires i < |order|
    ensures order[i] in RowsOf(order)
  {
    if i < |order| - 1 {
      RowsInOrder(order[..|order| - 1], i);
    }
  }

  /** Exactly the rows alone in their class, and those already canonical, end up canonical. */
  lemma CanonicalIffAlone(t: Table, id: nat)
    requires id in t
    ensures IsCanonical(Upgraded(t), id) <==> Alone(t, id) || IsCanonical(t, id)
  {
    AloneMeansCountOne(t, id);
  }

  lemma CollidingRowsUntouched(t: Table, id: nat)
    requires id in t && !Alone(t, id)
    ensures Upgraded(t)[id] == t[id]
  {
    AloneMeansCountOne(t, id);
  }

  /** The update moves no row to another class. */
  lemma ClassesKept(t: Table, id: nat)
    requires id in t
    ensures CanonicalClass(Upgraded(t), id) == CanonicalClass(t, id)
  {
  }

  lemma UpgradeIdempotent(t: Table)
    ensures Upgraded(Upgraded(t)) == Upgraded(t)
  {
    forall id | id in t ensures Upgraded(Upgraded(t))[id] == Upgraded(t)[id] {
      ClassesKept(t, id);
    }
  }

  /** An inbound sender is found by exact match exactly when its class has one row or a canonical member. */
  lemma LookupAfterUpgrade(t: Table, sender: string)
    requires AllDigits(sender)
    ensures (exists id :: id in t && Upgraded(t)[id] == sender) <==>
            (exists id :: id in t && DigitsOf(t[id]) == sender && (Alone(t, id) || IsCanonical(t, id)))
  {
    forall id | id in t ensures Upgraded(t)[id] == sender <==>
                                DigitsOf(t[id]) == sender && (Alone(t, id) || IsCanonical(t, id))
    {
      AloneMeansCountOne(t, id);
    }
  }
}
