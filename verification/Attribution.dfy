/** Last-touch attribution: which campaign a day's rows credit with a contact's revenue, and what that adds up to. */
module Attribution {
  import opened Grouping
  import opened Rollups
  import opened RoundedSums
  import opened Wrappers

  /** The row chosen for each contact by DISTINCT ON. */
  type Touches = map<nat, Recipient>

  /** A responded touch inside the window that ends with the day. */
  predicate Candidate(r: Recipient, day: int, window: nat) {
    && r.responded && r.sentAt.Some?
    && (day - window) * DAY <= r.sentAt.value && DayOf(r.sentAt.value) <= day
  }

  /** One latest candidate per contact; which of several equally late ones is up to the database. */
  predicate IsLastTouch(rs: seq<Recipient>, day: int, window: nat, touch: Touches) {
    && (forall c :: c in touch ==> touch[c] in rs && touch[c].contact == c && Candidate(touch[c], day, window))
    && (forall i :: 0 <= i < |rs| && Candidate(rs[i], day, window) ==>
          rs[i].contact in touch && rs[i].sentAt.value <= touch[rs[i].contact].sentAt.value)
  }

  /** One way to make the choice: the earlier row wins a tie. */
  function Latest(rs: seq<Recipient>, day: int, window: nat): Touches {
    if rs == [] then map[]
    else
      var touch, r := Latest(rs[..|rs| - 1], day, window), rs[|rs| - 1];
      if Candidate(r, day, window) && (r.contact in touch ==>
           touch[r.contact].sentAt.Some? && touch[r.contact].sentAt.value < r.sentAt.value)
      then touch[r.contact := r] else touch
  }

  lemma {:induction false} LatestIsLastTouch(rs: seq<Recipient>, day: int, window: nat)
    ensures IsLastTouch(rs, day, window, Latest(rs, day, window))
  {
    if rs != [] {
      var n := |rs| - 1;
      LatestIsLastTouch(rs[..n], day, window);
      var before, after := Latest(rs[..n], day, window), Latest(rs, day, window);
      forall c | c in after ensures after[c] in rs && after[c].contact == c && Candidate(after[c], day, window) {
        if c in before && after[c] == before[c] { assert before[c] in rs[..n]; }
      }
      forall i | 0 <= i < |rs| && Candidate(rs[i], day, window)
        ensures rs[i].contact in after && rs[i].sentAt.value <= after[rs[i].contact].sentAt.value
      {
        if i < n { assert rs[..n][i] == rs[i]; }
      }
    }
  }

  /** The query's scan. */
  method PickLastTouch(rs: seq<Recipient>, day: int, window: nat) returns (touch: Touches)
    ensures IsLastTouch(rs, day, window, touch)
  {
    touch := map[];
    var i := 0;
    while i < |rs|
      invariant 0 <= i <= |rs|
      invariant touch == Latest(rs[..i], day, window)
    {
      var r := rs[i];
      assert rs[..i + 1][..i] == rs[..i];
      LatestIsLastTouch(rs[..i], day, window);
      if Candidate(r, day, window) && (r.contact !in touch || touch[r.contact].sentAt.value < r.sentAt.value) {
        touch := touch[r.contact := r];
      }
      i := i + 1;
    }
    assert rs[..i] == rs;
    LatestIsLastTouch(rs, day, window);
  }

  // ------------------------------------------------------------ credit

  function Credited(touch: Touches, day: int): Contact -> bool {
    (c: Contact) => c.id in touch && IsOn(touch[c.id].sentAt, day)
  }

  function CreditedTo(touch: Touches): Contact -> Option<nat> {
    (c: Contact) => if c.id in touch then Some(touch[c.id].campaign) else None
  }

  function RevenueOf(): Contact -> int { (c: Contact) => c.revenue }

  /** The revenue credited to a campaign, as the contacts hold it. */
  function Credit(t: Tables, day: int, touch: Touches): nat -> int {
    (campaign: nat) => GroupSum(t.contacts, CreditedTo(touch), Some(campaign), Credited(touch, day), RevenueOf())
  }

  function Cents(credit: int): int { Money.HalfUp(credit, REVENUE_PARTS) }

  /** The cast of a campaign's credited revenue to cents. */
  function Revenue(t: Tables, day: int, touch: Touches, campaign: nat): int { Cents(Credit(t, day, touch)(campaign)) }

  /** The contact answered a message of that day. */
  predicate TouchedOn(t: Tables, contact: nat, day: int) {
    exists i :: 0 <= i < |t.recipients| && IsTouch(t.recipients[i], contact, day)
  }

  predicate IsTouch(r: Recipient, contact: nat, day: int) {
    r.contact == contact && r.responded && IsOn(r.sentAt, day)
  }

  lemma TouchIsCandidate(r: Recipient, contact: nat, day: int, window: nat)
    requires IsTouch(r, contact, day)
    ensures Candidate(r, day, window) && day * DAY <= r.sentAt.value
  {
  }

  lemma LaterIsNotEarlierDay(a: int, b: int)
    requires a <= b
    ensures DayOf(a) <= DayOf(b)
  {
  }

  /** A day credits a contact's revenue exactly when the contact answered a message of that day, and then to one
      campaign that has a row for the day: the latest such touch. The window plays no part. */
  lemma CreditedExactly(t: Tables, day: int, window: nat, touch: Touches, c: Contact)
    requires IsLastTouch(t.recipients, day, window, touch)
    ensures Credited(touch, day)(c) <==> TouchedOn(t, c.id, day)
    ensures Credited(touch, day)(c) ==>
              && IsTouch(touch[c.id], c.id, day) && touch[c.id] in t.recipients
              && touch[c.id].campaign in ActiveCampaigns(t, day)
              && forall i :: 0 <= i < |t.recipients| && IsTouch(t.recipients[i], c.id, day) ==>
                   t.recipients[i].sentAt.value <= touch[c.id].sentAt.value
  {
  }

  /** The revenue credited to the campaigns with a row adds up exactly to the revenue of the contacts who answered that
      day: the left join loses no credited campaign. */
  lemma CreditConserved(t: Tables, day: int, window: nat, touch: Touches, campaigns: seq<nat>)
    requires IsLastTouch(t.recipients, day, window, touch)
    requires Enumerates(campaigns, ActiveCampaigns(t, day))
    ensures SumOver(campaigns, Credit(t, day, touch)) == SumIf(t.contacts, Answered(t, day), RevenueOf())
  {
    var keys := seq(|campaigns|, i requires 0 <= i < |campaigns| => Some(campaigns[i]));
    forall i | 0 <= i < |t.contacts| && Credited(touch, day)(t.contacts[i]) && RevenueOf()(t.contacts[i]) != 0
      ensures CreditedTo(touch)(t.contacts[i]) in keys
    {
      CreditedExactly(t, day, window, touch, t.contacts[i]);
      var j :| 0 <= j < |campaigns| && campaigns[j] == touch[t.contacts[i].id].campaign;
      assert keys[j] == Some(campaigns[j]);
    }
    GroupsCoverAll(t.contacts, CreditedTo(touch), keys, Credited(touch, day), RevenueOf());
    CreditSums(t, day, touch, campaigns, keys);
    forall i | 0 <= i < |t.contacts|
      ensures Credited(touch, day)(t.contacts[i]) == Answered(t, day)(t.contacts[i])
    {
      CreditedExactly(t, day, window, touch, t.contacts[i]);
    }
    SumAgree(t.contacts, Credited(touch, day), RevenueOf(), Answered(t, day), RevenueOf());
  }

  function RevenueBy(t: Tables, day: int, touch: Touches): nat -> int { (k: nat) => Revenue(t, day, touch, k) }

  function Answered(t: Tables, day: int): Contact -> bool { (c: Contact) => TouchedOn(t, c.id, day) }

  lemma {:induction false} CreditSums(t: Tables, day: int, touch: Touches, campaigns: seq<nat>, keys: seq<Option<nat>>)
    requires |keys| == |campaigns| && forall i :: 0 <= i < |keys| ==> keys[i] == Some(campaigns[i])
    ensures SumOver(campaigns, Credit(t, day, touch)) ==
            GroupSums(t.contacts, CreditedTo(touch), keys, Credited(touch, day), RevenueOf())
  {
    if campaigns != [] {
      CreditSums(t, day, touch, campaigns[1..], keys[1..]);
    }
  }

  /** A campaign's revenue column is exact if and only if its credited revenue is in whole cents. */
  lemma RevenueExactIff(t: Tables, day: int, touch: Touches, campaign: nat)
    ensures Revenue(t, day, touch, campaign) * REVENUE_PARTS == Credit(t, day, touch)(campaign) <==>
              Credit(t, day, touch)(campaign) % REVENUE_PARTS == 0
  {
    WholeIsExact(Credit(t, day, touch)(campaign), REVENUE_PARTS);
  }

  lemma RevenueColumnIsStored(t: Tables, day: int, touch: Touches, campaign: nat)
    ensures Column(t, day, RevenueBy(t, day, touch), RevenueColumn())(campaign) ==
            Cents(Credit(t, day, touch)(campaign))
  {
    var revenue := RevenueBy(t, day, touch);
    assert revenue(campaign) == Revenue(t, day, touch, campaign);
    assert CampaignRowOf(t, day, campaign, revenue(campaign)).revenue == revenue(campaign);
  }

  /** The revenue column adds up to the revenue of the contacts who answered that day within half a cent per campaign row,
      and exactly when every campaign's credited revenue is in whole cents. */
  lemma RevenueConserved(t: Tables, day: int, window: nat, touch: Touches, campaigns: seq<nat>)
    requires IsLastTouch(t.recipients, day, window, touch)
    requires Enumerates(campaigns, ActiveCampaigns(t, day))
    ensures var stored := SumOver(campaigns, Column(t, day, RevenueBy(t, day, touch), RevenueColumn()));
            var total := SumIf(t.contacts, Answered(t, day), RevenueOf());
            && -(|campaigns| * REVENUE_PARTS) <= 2 * (stored * REVENUE_PARTS - total) <= |campaigns| * REVENUE_PARTS
            && ((forall c :: c in campaigns ==> Credit(t, day, touch)(c) % REVENUE_PARTS == 0) ==>
                  stored * REVENUE_PARTS == total)
  {
    var column := Column(t, day, RevenueBy(t, day, touch), RevenueColumn());
    CreditConserved(t, day, window, touch, campaigns);
    forall c | c in campaigns ensures column(c) == Cents(Credit(t, day, touch)(c)) {
      RevenueColumnIsStored(t, day, touch, c);
    }
    SumWithin(campaigns, Credit(t, day, touch), column, REVENUE_PARTS);
    if forall c :: c in campaigns ==> Credit(t, day, touch)(c) % REVENUE_PARTS == 0 {
      SumExact(campaigns, Credit(t, day, touch), column, REVENUE_PARTS);
    }
  }

  /** Every contact's revenue is in whole cents. */
  predicate WholeCents(t: Tables) {
    forall i :: 0 <= i < |t.contacts| ==> t.contacts[i].revenue % REVENUE_PARTS == 0
  }

  lemma WholeCentsAreConserved(t: Tables, day: int, window: nat, touch: Touches, campaigns: seq<nat>)
    requires WholeCents(t) && IsLastTouch(t.recipients, day, window, touch)
    requires Enumerates(campaigns, ActiveCampaigns(t, day))
    ensures SumOver(campaigns, Column(t, day, RevenueBy(t, day, touch), RevenueColumn())) * REVENUE_PARTS ==
            SumIf(t.contacts, Answered(t, day), RevenueOf())
  {
    RevenueConserved(t, day, window, touch, campaigns);
    forall c | c in campaigns ensures Credit(t, day, touch)(c) % REVENUE_PARTS == 0 {
      GroupSumWhole(t.contacts, CreditedTo(touch), Some(c), Credited(touch, day), RevenueOf(), REVENUE_PARTS);
    }
  }

  function Answer(campaign: nat, contact: nat): Recipient {
    Recipient(campaign, contact, None, Arrived, Some(0), None, None, true)
  }

  // Two contacts with half a cent each, who answered one campaign each.
  const HALF_CENTS: Tables := Tables([], [], [Answer(1, 1), Answer(2, 2)], [Contact(1, 50), Contact(2, 50)], map[], map[])
  const HALF_CENT_TOUCHES: Touches := map[1 := Answer(1, 1), 2 := Answer(2, 2)]

  /** Below a cent the column does lose or gain: two rows of 0.01 for 0.0100 in all. */
  lemma HalfCentsAreNotConserved()
    ensures IsLastTouch(HALF_CENTS.recipients, 0, ATTRIBUTION_WINDOW_DAYS, HALF_CENT_TOUCHES)
    ensures Revenue(HALF_CENTS, 0, HALF_CENT_TOUCHES, 1) == 1 && Revenue(HALF_CENTS, 0, HALF_CENT_TOUCHES, 2) == 1
    ensures SumIf(HALF_CENTS.contacts, Answered(HALF_CENTS, 0), RevenueOf()) == 100
  {
    var t, touch := HALF_CENTS, HALF_CENT_TOUCHES;
    assert t.recipients[0] == Answer(1, 1) && t.recipients[1] == Answer(2, 2);
    assert t.contacts[1..] == [Contact(2, 50)] && t.contacts[1..][1..] == [];
    assert IsTouch(t.recipients[0], 1, 0) && IsTouch(t.recipients[1], 2, 0);
    forall k: nat ensures Credit(t, 0, touch)(k) == if k == 1 || k == 2 then 50 else 0 {
      assert GroupSum(t.contacts[1..], CreditedTo(touch), Some(k), Credited(touch, 0), RevenueOf()) == if k == 2 then 50 else 0;
    }
    assert SumIf(t.contacts[1..], Answered(t, 0), RevenueOf()) == 50;
  }

  /** A contact who answered on several days is credited again on each: over any list of days the credited revenue
      is each contact's revenue times the number of listed days on which the contact answered. */
  lemma {:induction false} RevenueCountedPerTouchDay(t: Tables, days: seq<int>)
    ensures SumOver(days, DayRevenue(t)) == SumIf(t.contacts, AnyContact(), RevenueTimesDays(t, days))
  {
    if days == [] {
      NoDays(t, t.contacts);
    } else {
      RevenueCountedPerTouchDay(t, days[1..]);
      OneMoreDay(t, t.contacts, days);
    }
  }

  function DayRevenue(t: Tables): int -> int { (day: int) => SumIf(t.contacts, Answered(t, day), RevenueOf()) }

  function AnyContact(): Contact -> bool { (c: Contact) => true }

  function TouchDays(t: Tables, contact: nat, days: seq<int>): nat {
    if days == [] then 0 else (if TouchedOn(t, contact, days[0]) then 1 else 0) + TouchDays(t, contact, days[1..])
  }

  function RevenueTimesDays(t: Tables, days: seq<int>): Contact -> int {
    (c: Contact) => c.revenue * TouchDays(t, c.id, days)
  }

  lemma {:induction false} NoDays(t: Tables, contacts: seq<Contact>)
    ensures SumIf(contacts, AnyContact(), RevenueTimesDays(t, [])) == 0
  {
    if contacts != [] { NoDays(t, contacts[1..]); }
  }

  lemma {:induction false} OneMoreDay(t: Tables, contacts: seq<Contact>, days: seq<int>)
    requires days != []
    ensures SumIf(contacts, AnyContact(), RevenueTimesDays(t, days)) ==
            SumIf(contacts, Answered(t, days[0]), RevenueOf()) + SumIf(contacts, AnyContact(), RevenueTimesDays(t, days[1..]))
  {
    if contacts != [] {
      OneMoreDay(t, contacts[1..], days);
      var c, n := contacts[0], TouchDays(t, contacts[0].id, days[1..]);
      assert c.revenue * (n + 1) == c.revenue + c.revenue * n;
    }
  }

  /** One day's run: the touches the database chose and the campaigns it wrote rows for. */
  datatype RevenueRun = RevenueRun(day: int, touch: Touches, campaigns: seq<nat>)

  predicate RunOf(t: Tables, window: nat, run: RevenueRun) {
    IsLastTouch(t.recipients, run.day, window, run.touch) && Enumerates(run.campaigns, ActiveCampaigns(t, run.day))
  }

  function StoredRevenue(t: Tables, run: RevenueRun): int {
    SumOver(run.campaigns, Column(t, run.day, RevenueBy(t, run.day, run.touch), RevenueColumn()))
  }

  function StoredOver(t: Tables, runs: seq<RevenueRun>): int {
    if runs == [] then 0 else StoredRevenue(t, runs[0]) + StoredOver(t, runs[1..])
  }

  function RowsOver(runs: seq<RevenueRun>): nat {
    if runs == [] then 0 else |runs[0].campaigns| + RowsOver(runs[1..])
  }

  function DaysOf(runs: seq<RevenueRun>): seq<int> {
    if runs == [] then [] else [runs[0].day] + DaysOf(runs[1..])
  }

  /** What the revenue columns of several days add up to is every contact's revenue times the number of days answered,
      within half a cent per row, and exactly so for revenue in whole cents. */
  lemma StoredPerTouchDay(t: Tables, window: nat, runs: seq<RevenueRun>)
    requires forall i :: 0 <= i < |runs| ==> RunOf(t, window, runs[i])
    ensures var counted := SumIf(t.contacts, AnyContact(), RevenueTimesDays(t, DaysOf(runs)));
            && -(RowsOver(runs) * REVENUE_PARTS) <= 2 * (StoredOver(t, runs) * REVENUE_PARTS - counted)
                 <= RowsOver(runs) * REVENUE_PARTS
            && (WholeCents(t) ==> StoredOver(t, runs) * REVENUE_PARTS == counted)
  {
    StoredByDay(t, window, runs);
    RevenueCountedPerTouchDay(t, DaysOf(runs));
  }

  lemma {:induction false} StoredByDay(t: Tables, window: nat, runs: seq<RevenueRun>)
    requires forall i :: 0 <= i < |runs| ==> RunOf(t, window, runs[i])
    ensures var credited := SumOver(DaysOf(runs), DayRevenue(t));
            && -(RowsOver(runs) * REVENUE_PARTS) <= 2 * (StoredOver(t, runs) * REVENUE_PARTS - credited)
                 <= RowsOver(runs) * REVENUE_PARTS
            && (WholeCents(t) ==> StoredOver(t, runs) * REVENUE_PARTS == credited)
  {
    if runs != [] {
      var run := runs[0];
      StoredByDay(t, window, runs[1..]);
      RevenueConserved(t, run.day, window, run.touch, run.campaigns);
      if WholeCents(t) { WholeCentsAreConserved(t, run.day, window, run.touch, run.campaigns); }
      assert DaysOf(runs)[1..] == DaysOf(runs[1..]);
      assert SumOver(DaysOf(runs), DayRevenue(t)) == DayRevenue(t)(run.day) + SumOver(DaysOf(runs[1..]), DayRevenue(t));
    }
  }

  // ------------------------------------------------------------ determinacy

  /** r could be the row chosen for the contact, and is of that day. */
  predicate IsTop(rs: seq<Recipient>, day: int, contact: nat, r: Recipient) {
    && r in rs && IsTouch(r, contact, day)
    && forall i :: 0 <= i < |rs| && IsTouch(rs[i], contact, day) ==> rs[i].sentAt.value <= r.sentAt.value
  }

  /** Two equally late touches of different campaigns. */
  predicate Tied(rs: seq<Recipient>, day: int, contact: nat, a: Recipient, b: Recipient) {
    IsTop(rs, day, contact, a) && IsTop(rs, day, contact, b) && a.campaign != b.campaign
  }

  ghost predicate NoTies(t: Tables, day: int) {
    forall i, a, b :: 0 <= i < |t.contacts| && t.contacts[i].revenue != 0 ==> !Tied(t.recipients, day, t.contacts[i].id, a, b)
  }

  ghost predicate RevenueDetermined(t: Tables, day: int, window: nat) {
    forall x, y, k :: IsLastTouch(t.recipients, day, window, x) && IsLastTouch(t.recipients, day, window, y) ==>
      Revenue(t, day, x, k) == Revenue(t, day, y, k)
  }

  ghost predicate CreditDetermined(t: Tables, day: int, window: nat) {
    forall x, y, k :: IsLastTouch(t.recipients, day, window, x) && IsLastTouch(t.recipients, day, window, y) ==>
      Credit(t, day, x)(k) == Credit(t, day, y)(k)
  }

  /** Every contact's revenue is zero or at least one cent. */
  predicate NoSmallRevenue(t: Tables) {
    forall i :: 0 <= i < |t.contacts| ==> t.contacts[i].revenue == 0 || Money.Abs(t.contacts[i].revenue) >= REVENUE_PARTS
  }

  predicate DistinctIds(contacts: seq<Contact>) {
    forall i, j :: 0 <= i < j < |contacts| ==> contacts[i].id != contacts[j].id
  }

  lemma CreditIsTop(t: Tables, day: int, window: nat, touch: Touches, c: Contact)
    requires IsLastTouch(t.recipients, day, window, touch) && Credited(touch, day)(c)
    ensures IsTop(t.recipients, day, c.id, touch[c.id])
  {
  }

  /** Without ties every choice the database may make gives the same rows. */
  lemma SameRevenue(t: Tables, day: int, window: nat, x: Touches, y: Touches, k: nat)
    requires NoTies(t, day)
    requires IsLastTouch(t.recipients, day, window, x) && IsLastTouch(t.recipients, day, window, y)
    ensures Credit(t, day, x)(k) == Credit(t, day, y)(k) && Revenue(t, day, x, k) == Revenue(t, day, y, k)
  {
    forall i | 0 <= i < |t.contacts| && t.contacts[i].revenue != 0
      ensures Credited(x, day)(t.contacts[i]) == Credited(y, day)(t.contacts[i])
      ensures Credited(x, day)(t.contacts[i]) ==> CreditedTo(x)(t.contacts[i]) == CreditedTo(y)(t.contacts[i])
    {
      var c := t.contacts[i];
      CreditedExactly(t, day, window, x, c);
      CreditedExactly(t, day, window, y, c);
      if Credited(x, day)(c) {
        CreditIsTop(t, day, window, x, c);
        CreditIsTop(t, day, window, y, c);
        assert !Tied(t.recipients, day, c.id, x[c.id], y[c.id]);
      }
    }
    RevenueAgrees(t.contacts, day, x, y, k);
  }

  lemma {:induction false} RevenueAgrees(contacts: seq<Contact>, day: int, x: Touches, y: Touches, k: nat)
    requires forall i :: 0 <= i < |contacts| && contacts[i].revenue != 0 ==>
               && Credited(x, day)(contacts[i]) == Credited(y, day)(contacts[i])
               && (Credited(x, day)(contacts[i]) ==> CreditedTo(x)(contacts[i]) == CreditedTo(y)(contacts[i]))
    ensures GroupSum(contacts, CreditedTo(x), Some(k), Credited(x, day), RevenueOf()) ==
            GroupSum(contacts, CreditedTo(y), Some(k), Credited(y, day), RevenueOf())
  {
    if contacts != [] {
      RevenueAgrees(contacts[1..], day, x, y, k);
    }
  }

  /** Choosing a top touch of one contact keeps the choice valid. */
  lemma TopCanBeChosen(t: Tables, day: int, window: nat, touch: Touches, contact: nat, r: Recipient)
    requires IsLastTouch(t.recipients, day, window, touch) && IsTop(t.recipients, day, contact, r)
    ensures IsLastTouch(t.recipients, day, window, touch[contact := r])
  {
  }

  /** Switching one contact's choice moves that contact's revenue and nothing else. */
  lemma {:induction false} SwitchMovesRevenue(contacts: seq<Contact>, day: int, touch: Touches, i: nat, a: Recipient, b: Recipient)
    requires DistinctIds(contacts) && i < |contacts|
    requires IsOn(a.sentAt, day) && IsOn(b.sentAt, day) && a.campaign != b.campaign
    ensures var x, y := touch[contacts[i].id := a], touch[contacts[i].id := b];
            GroupSum(contacts, CreditedTo(x), Some(a.campaign), Credited(x, day), RevenueOf()) ==
            GroupSum(contacts, CreditedTo(y), Some(a.campaign), Credited(y, day), RevenueOf()) + contacts[i].revenue
  {
    var x, y := touch[contacts[i].id := a], touch[contacts[i].id := b];
    if i == 0 {
      RevenueAgrees(contacts[1..], day, x, y, a.campaign);
    } else {
      SwitchMovesRevenue(contacts[1..], day, touch, i - 1, a, b);
    }
  }

  /** Two choices between which a tie moves the contact's revenue away from campaign a. */
  lemma TieMovesCredit(t: Tables, day: int, window: nat, i: nat, a: Recipient, b: Recipient) returns (x: Touches, y: Touches)
    requires DistinctIds(t.contacts) && i < |t.contacts| && Tied(t.recipients, day, t.contacts[i].id, a, b)
    ensures IsLastTouch(t.recipients, day, window, x) && IsLastTouch(t.recipients, day, window, y)
    ensures Credit(t, day, x)(a.campaign) == Credit(t, day, y)(a.campaign) + t.contacts[i].revenue
  {
    LatestIsLastTouch(t.recipients, day, window);
    var touch := Latest(t.recipients, day, window);
    TopCanBeChosen(t, day, window, touch, t.contacts[i].id, a);
    TopCanBeChosen(t, day, window, touch, t.contacts[i].id, b);
    SwitchMovesRevenue(t.contacts, day, touch, i, a, b);
    x, y := touch[t.contacts[i].id := a], touch[t.contacts[i].id := b];
  }

  /** A difference of a cent or more survives the rounding. */
  lemma ACentShows(x: int, r: int)
    requires Money.Abs(r) >= REVENUE_PARTS
    ensures Cents(x + r) != Cents(x)
  {
  }

  /** What the day credits is determined by the source tables exactly when no contact with revenue has two equally late
      answered touches of different campaigns that day. */
  lemma CreditDeterminedIffNoTies(t: Tables, day: int, window: nat)
    requires DistinctIds(t.contacts)
    ensures CreditDetermined(t, day, window) <==> NoTies(t, day)
  {
    if NoTies(t, day) {
      forall x, y, k | IsLastTouch(t.recipients, day, window, x) && IsLastTouch(t.recipients, day, window, y)
        ensures Credit(t, day, x)(k) == Credit(t, day, y)(k)
      {
        SameRevenue(t, day, window, x, y, k);
      }
    } else {
      var i, a, b :| 0 <= i < |t.contacts| && t.contacts[i].revenue != 0 && Tied(t.recipients, day, t.contacts[i].id, a, b);
      var x, y := TieMovesCredit(t, day, window, i, a, b);
      assert Credit(t, day, x)(a.campaign) != Credit(t, day, y)(a.campaign);
    }
  }

  lemma TieIsUndetermined(t: Tables, day: int, window: nat, i: nat, a: Recipient, b: Recipient)
    requires DistinctIds(t.contacts) && i < |t.contacts| && Money.Abs(t.contacts[i].revenue) >= REVENUE_PARTS
    requires Tied(t.recipients, day, t.contacts[i].id, a, b)
    ensures !RevenueDetermined(t, day, window)
  {
    var x, y := TieMovesCredit(t, day, window, i, a, b);
    ACentShows(Credit(t, day, y)(a.campaign), t.contacts[i].revenue);
    assert Revenue(t, day, x, a.campaign) != Revenue(t, day, y, a.campaign);
  }

  lemma UntiedIsDetermined(t: Tables, day: int, window: nat)
    requires NoTies(t, day)
    ensures RevenueDetermined(t, day, window)
  {
    forall x, y, k | IsLastTouch(t.recipients, day, window, x) && IsLastTouch(t.recipients, day, window, y)
      ensures Revenue(t, day, x, k) == Revenue(t, day, y, k)
    {
      SameRevenue(t, day, window, x, y, k);
    }
  }

  /** So is the revenue column, when every contact's revenue is zero or at least one cent; without ties it is determined in
      any case. */
  lemma DeterminedIffNoTies(t: Tables, day: int, window: nat)
    requires DistinctIds(t.contacts)
    ensures NoTies(t, day) ==> RevenueDetermined(t, day, window)
    ensures NoSmallRevenue(t) ==> (RevenueDetermined(t, day, window) <==> NoTies(t, day))
  {
    if NoTies(t, day) {
      UntiedIsDetermined(t, day, window);
    } else if NoSmallRevenue(t) {
      var i, a, b :| 0 <= i < |t.contacts| && t.contacts[i].revenue != 0 && Tied(t.recipients, day, t.contacts[i].id, a, b);
      TieIsUndetermined(t, day, window, i, a, b);
    }
  }

  // A contact with a tenth of a cent, tied between two campaigns.
  const HIDDEN_TIE: Tables := Tables([], [], [Answer(1, 7), Answer(2, 7)], [Contact(7, 10)], map[], map[])

  /** A tie that moves less than a cent can stay hidden: both rows read 0.00 whatever the choice. */
  lemma SmallTieIsHidden(window: nat)
    ensures !NoTies(HIDDEN_TIE, 0) && RevenueDetermined(HIDDEN_TIE, 0, window)
  {
    var t := HIDDEN_TIE;
    assert t.recipients[0] == Answer(1, 7) && t.recipients[1] == Answer(2, 7) && t.contacts[0] == Contact(7, 10);
    assert Tied(t.recipients, 0, t.contacts[0].id, Answer(1, 7), Answer(2, 7));
    forall x: Touches, k: nat ensures Revenue(t, 0, x, k) == 0 {
      assert t.contacts[1..] == [];
      assert 0 <= Credit(t, 0, x)(k) <= 10;
    }
  }

  /** The attribution window never matters: cutting it to the day itself leaves the same credit. */
  lemma WindowIsIrrelevant(t: Tables, day: int, window: nat, touch: Touches, k: nat)
    requires IsLastTouch(t.recipients, day, window, touch)
    ensures var cut := map c | c in touch && IsOn(touch[c].sentAt, day) :: touch[c];
            && IsLastTouch(t.recipients, day, 0, cut)
            && Credit(t, day, cut)(k) == Credit(t, day, touch)(k) && Revenue(t, day, cut, k) == Revenue(t, day, touch, k)
  {
    var cut: Touches := map c | c in touch && IsOn(touch[c].sentAt, day) :: touch[c];
    var rs := t.recipients;
    forall c | c in cut ensures cut[c] in rs && cut[c].contact == c && Candidate(cut[c], day, 0) {
      TouchIsCandidate(cut[c], c, day, 0);
    }
    forall i | 0 <= i < |rs| && Candidate(rs[i], day, 0)
      ensures rs[i].contact in cut && rs[i].sentAt.value <= cut[rs[i].contact].sentAt.value
    {
      LaterIsNotEarlierDay(day * DAY, rs[i].sentAt.value);
      RangeIsDateCast(day * DAY, day);
      TouchIsCandidate(rs[i], rs[i].contact, day, window);
      LaterIsNotEarlierDay(rs[i].sentAt.value, touch[rs[i].contact].sentAt.value);
    }
    RevenueAgrees(t.contacts, day, cut, touch, k);
  }
}
