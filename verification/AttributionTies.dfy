/** How far the database's choice among equally late touches can move a campaign's revenue column. */
module AttributionTies {
  import opened Grouping
  import opened Rollups
  import opened Attribution
  import opened Wrappers

  /** One of the contact's latest touches of the day belongs to the campaign. */
  predicate CanCredit(t: Tables, day: int, k: nat, contact: nat) {
    exists i :: 0 <= i < |t.recipients| && IsTop(t.recipients, day, contact, t.recipients[i]) && t.recipients[i].campaign == k
  }

  /** One of them belongs to another campaign. */
  predicate CanAvoid(t: Tables, day: int, k: nat, contact: nat) {
    exists i :: 0 <= i < |t.recipients| && IsTop(t.recipients, day, contact, t.recipients[i]) && t.recipients[i].campaign != k
  }

  /** The contact's revenue goes to the campaign whenever it must, and if it may, exactly when that is preferred. */
  predicate Goes(t: Tables, day: int, k: nat, contact: nat, preferred: bool) {
    CanCredit(t, day, k, contact) && (preferred || !CanAvoid(t, day, k, contact))
  }

  predicate Wanted(most: bool, revenue: int) { if most then revenue > 0 else revenue < 0 }

  /** What the contact adds when the campaign's credit is to be as large, or as small, as possible. */
  function Extreme(t: Tables, day: int, k: nat, most: bool): Contact -> int {
    (c: Contact) => if Goes(t, day, k, c.id, Wanted(most, c.revenue)) then c.revenue else 0
  }

  /** The most and the least that any choice can credit to the campaign. */
  function Most(t: Tables, day: int, k: nat): int { SumIf(t.contacts, AnyContact(), Extreme(t, day, k, true)) }

  function Least(t: Tables, day: int, k: nat): int { SumIf(t.contacts, AnyContact(), Extreme(t, day, k, false)) }

  /** What one contact adds to the campaign's credit. */
  function Share(touch: Touches, day: int, k: nat): Contact -> int {
    (c: Contact) => if Credited(touch, day)(c) && touch[c.id].campaign == k then c.revenue else 0
  }

  lemma {:induction false} CreditIsShares(contacts: seq<Contact>, touch: Touches, day: int, k: nat)
    ensures GroupSum(contacts, CreditedTo(touch), Some(k), Credited(touch, day), RevenueOf()) ==
            SumIf(contacts, AnyContact(), Share(touch, day, k))
  {
    if contacts != [] { CreditIsShares(contacts[1..], touch, day, k); }
  }

  lemma ShareWithin(t: Tables, day: int, window: nat, touch: Touches, k: nat, c: Contact)
    requires IsLastTouch(t.recipients, day, window, touch)
    ensures Extreme(t, day, k, false)(c) <= Share(touch, day, k)(c) <= Extreme(t, day, k, true)(c)
  {
    CreditedExactly(t, day, window, touch, c);
    if Credited(touch, day)(c) {
      CreditIsTop(t, day, window, touch, c);
      var i :| 0 <= i < |t.recipients| && t.recipients[i] == touch[c.id];
      assert IsTop(t.recipients, day, c.id, t.recipients[i]);
    }
  }

  lemma {:induction false} SumOrdered(contacts: seq<Contact>, a: Contact -> int, b: Contact -> int)
    requires forall i :: 0 <= i < |contacts| ==> a(contacts[i]) <= b(contacts[i])
    ensures SumIf(contacts, AnyContact(), a) <= SumIf(contacts, AnyContact(), b)
  {
    if contacts != [] { SumOrdered(contacts[1..], a, b); }
  }

  /** Every choice stays between the two. */
  lemma CreditWithin(t: Tables, day: int, window: nat, touch: Touches, k: nat)
    requires IsLastTouch(t.recipients, day, window, touch)
    ensures Least(t, day, k) <= Credit(t, day, touch)(k) <= Most(t, day, k)
  {
    CreditIsShares(t.contacts, touch, day, k);
    forall i | 0 <= i < |t.contacts|
      ensures Extreme(t, day, k, false)(t.contacts[i]) <= Share(touch, day, k)(t.contacts[i]) <= Extreme(t, day, k, true)(t.contacts[i])
    {
      ShareWithin(t, day, window, touch, k, t.contacts[i]);
    }
    SumOrdered(t.contacts, Extreme(t, day, k, false), Share(touch, day, k));
    SumOrdered(t.contacts, Share(touch, day, k), Extreme(t, day, k, true));
  }

  lemma SameTouchSameShare(x: Touches, y: Touches, day: int, k: nat, c: Contact)
    requires c.id in x <==> c.id in y
    requires c.id in x ==> x[c.id] == y[c.id]
    ensures Share(x, day, k)(c) == Share(y, day, k)(c)
  {
    assert Credited(x, day)(c) == Credited(y, day)(c);
  }

  lemma TopShare(touch: Touches, rs: seq<Recipient>, day: int, k: nat, c: Contact, r: Recipient)
    requires IsTop(rs, day, c.id, r)
    ensures Share(touch[c.id := r], day, k)(c) == if r.campaign == k then c.revenue else 0
  {
    assert Credited(touch[c.id := r], day)(c);
  }

  /** One contact's touch can be chosen so that its revenue goes where it is wanted. */
  lemma Choose(t: Tables, day: int, window: nat, touch: Touches, k: nat, c: Contact, preferred: bool) returns (x: Touches)
    requires IsLastTouch(t.recipients, day, window, touch)
    ensures IsLastTouch(t.recipients, day, window, x)
    ensures forall id :: id != c.id ==> (id in x <==> id in touch) && (id in x ==> x[id] == touch[id])
    ensures Share(x, day, k)(c) == if Goes(t, day, k, c.id, preferred) then c.revenue else 0
  {
    var rs := t.recipients;
    x := touch;
    if Goes(t, day, k, c.id, preferred) {
      var i :| 0 <= i < |rs| && IsTop(rs, day, c.id, rs[i]) && rs[i].campaign == k;
      TopCanBeChosen(t, day, window, touch, c.id, rs[i]);
      TopShare(touch, rs, day, k, c, rs[i]);
      x := touch[c.id := rs[i]];
    } else if CanAvoid(t, day, k, c.id) {
      var i :| 0 <= i < |rs| && IsTop(rs, day, c.id, rs[i]) && rs[i].campaign != k;
      TopCanBeChosen(t, day, window, touch, c.id, rs[i]);
      TopShare(touch, rs, day, k, c, rs[i]);
      x := touch[c.id := rs[i]];
    } else {
      ShareWithin(t, day, window, touch, k, c);
    }
  }

  lemma {:induction false} ChooseAll(t: Tables, day: int, window: nat, k: nat, most: bool, n: nat) returns (x: Touches)
    requires DistinctIds(t.contacts) && n <= |t.contacts|
    ensures IsLastTouch(t.recipients, day, window, x)
    ensures forall i :: 0 <= i < n ==> Share(x, day, k)(t.contacts[i]) == Extreme(t, day, k, most)(t.contacts[i])
    decreases n
  {
    if n == 0 {
      x := Latest(t.recipients, day, window);
      LatestIsLastTouch(t.recipients, day, window);
    } else {
      var c := t.contacts[n - 1];
      var before := ChooseAll(t, day, window, k, most, n - 1);
      x := Choose(t, day, window, before, k, c, Wanted(most, c.revenue));
      forall i | 0 <= i < n - 1 ensures Share(x, day, k)(t.contacts[i]) == Share(before, day, k)(t.contacts[i]) {
        assert t.contacts[i].id != c.id;
        SameTouchSameShare(x, before, day, k, t.contacts[i]);
      }
    }
  }

  /** Both are reached by a choice the database may make. */
  lemma ExtremesAreReached(t: Tables, day: int, window: nat, k: nat) returns (low: Touches, high: Touches)
    requires DistinctIds(t.contacts)
    ensures IsLastTouch(t.recipients, day, window, low) && Credit(t, day, low)(k) == Least(t, day, k)
    ensures IsLastTouch(t.recipients, day, window, high) && Credit(t, day, high)(k) == Most(t, day, k)
  {
    low := ChooseAll(t, day, window, k, false, |t.contacts|);
    high := ChooseAll(t, day, window, k, true, |t.contacts|);
    CreditIsShares(t.contacts, low, day, k);
    CreditIsShares(t.contacts, high, day, k);
    SumAgree(t.contacts, AnyContact(), Share(low, day, k), AnyContact(), Extreme(t, day, k, false));
    SumAgree(t.contacts, AnyContact(), Share(high, day, k), AnyContact(), Extreme(t, day, k, true));
  }

  lemma CentsKeepOrder(a: int, b: int)
    requires a <= b
    ensures Cents(a) <= Cents(b)
  {
  }

  /** The revenue column is determined exactly when for every campaign the least and the most it can be credited round to
      the same cents. */
  lemma DeterminedIffRangesRoundAlike(t: Tables, day: int, window: nat)
    requires DistinctIds(t.contacts)
    ensures RevenueDetermined(t, day, window) <==> forall k: nat :: Cents(Least(t, day, k)) == Cents(Most(t, day, k))
  {
    if RevenueDetermined(t, day, window) {
      forall k: nat ensures Cents(Least(t, day, k)) == Cents(Most(t, day, k)) {
        var low, high := ExtremesAreReached(t, day, window, k);
        assert Revenue(t, day, low, k) == Revenue(t, day, high, k);
      }
    }
    if forall k: nat :: Cents(Least(t, day, k)) == Cents(Most(t, day, k)) {
      forall x, y, k | IsLastTouch(t.recipients, day, window, x) && IsLastTouch(t.recipients, day, window, y)
        ensures Revenue(t, day, x, k) == Revenue(t, day, y, k)
      {
        CentsOf(t, day, window, x, k);
        CentsOf(t, day, window, y, k);
      }
    }
  }

  lemma CentsOf(t: Tables, day: int, window: nat, touch: Touches, k: nat)
    requires IsLastTouch(t.recipients, day, window, touch)
    ensures Cents(Least(t, day, k)) <= Revenue(t, day, touch, k) <= Cents(Most(t, day, k))
  {
    CreditWithin(t, day, window, touch, k);
    CentsKeepOrder(Least(t, day, k), Credit(t, day, touch)(k));
    CentsKeepOrder(Credit(t, day, touch)(k), Most(t, day, k));
  }
}
