/** The rows a day's four upserts insert, and what the tables then hold. */
module RollupDays {
  import opened Grouping
  import opened Rollups
  import opened RollupRows
  import opened Attribution
  import opened RoundedSums
  import opened Wrappers

  type CampaignKey = (nat, int)
  type HourKey = (int, int)

  function GlobalRowsOn(t: Tables, day: int): map<int, GlobalRow> {
    map d | d in {day} :: GlobalOf(t, d)
  }

  function HourlyRowsOn(t: Tables, day: int): map<HourKey, HourlyRow> {
    map k: HourKey | k in (set h | h in ActiveHours(t, day) :: (day, h)) :: HourlyOf(t, day, k.1)
  }

  function TemplateRowsOn(t: Tables, day: int): map<CampaignKey, TemplateRow> {
    map k: CampaignKey | k in (set c | c in ActiveTemplates(t, day) :: (c, day)) && k.0 in t.templateName
      :: TemplateRowOf(t, day, k.0)
  }

  function CampaignRows(t: Tables, day: int, touch: Touches): map<CampaignKey, CampaignRow> {
    map k: CampaignKey | k in (set c | c in ActiveCampaigns(t, day) :: (c, day))
      :: CampaignRowOf(t, day, k.0, Revenue(t, day, touch, k.0))
  }

  // ------------------------------------------------------------ what a table holds for a day

  predicate HasMessageIn(t: Tables, day: int, hour: int) {
    exists i :: 0 <= i < |t.messages| && InHour(t.messages[i].createdAt, day, hour)
  }

  /** One of the campaign's recipients was sent to that day. */
  predicate WasSent(t: Tables, day: int, c: nat) {
    exists i :: 0 <= i < |t.recipients| && t.recipients[i].campaign == c && MaybeOn(t.recipients[i].sentAt, day)
  }

  predicate WasUsed(t: Tables, day: int, template: nat) {
    exists i :: 0 <= i < |t.recipients| && MaybeOn(t.recipients[i].sentAt, day)
                && HasTemplate(t, t.recipients[i].campaign, template)
  }

  /** What a contact's last touch credits to the campaign that day. */
  function CreditTo(touch: Touches, day: int, c: nat): Contact -> int {
    (x: Contact) => if x.id in touch && MaybeOn(touch[x.id].sentAt, day) && touch[x.id].campaign == c then x.revenue else 0
  }

  predicate GlobalHolds(t: Tables, day: int, table: map<int, GlobalRow>) {
    day in table && GlobalFits(t, day, table[day])
  }

  ghost predicate HoursHold(t: Tables, day: int, table: map<HourKey, HourlyRow>) {
    forall h: int :: HasMessageIn(t, day, h) ==> (day, h) in table && HourFits(t, day, h, table[(day, h)])
  }

  ghost predicate TemplatesHold(t: Tables, day: int, table: map<CampaignKey, TemplateRow>) {
    forall c: nat :: WasUsed(t, day, c) ==>
      (c, day) in table && c in t.templateName && TemplateFits(t, day, c, table[(c, day)])
  }

  ghost predicate CampaignsHold(t: Tables, day: int, touch: Touches, table: map<CampaignKey, CampaignRow>) {
    forall c: nat :: WasSent(t, day, c) ==>
      (c, day) in table && CampaignFits(t, day, c, SumOver(t.contacts, CreditTo(touch, day, c)), table[(c, day)])
  }

  // ------------------------------------------------------------ the inserted rows

  lemma GlobalRowsExactly(t: Tables, day: int)
    ensures GlobalRowsOn(t, day).Keys == {day} && GlobalHolds(t, day, GlobalRowsOn(t, day))
  {
    GlobalExactly(t, day);
  }

  lemma HourlyRowsExactly(t: Tables, day: int)
    ensures forall k: HourKey :: k in HourlyRowsOn(t, day) <==> k.0 == day && HasMessageIn(t, day, k.1)
    ensures HoursHold(t, day, HourlyRowsOn(t, day))
  {
    forall h: int
      ensures h in ActiveHours(t, day) <==> HasMessageIn(t, day, h)
      ensures HourFits(t, day, h, HourlyOf(t, day, h))
    {
      HoursExactly(t, day, h);
      HourExactly(t, day, h);
    }
  }

  lemma TemplateRowsExactly(t: Tables, day: int)
    ensures forall k: CampaignKey :: k in TemplateRowsOn(t, day) <==> k.1 == day && WasUsed(t, day, k.0)
    ensures TemplatesHold(t, day, TemplateRowsOn(t, day))
  {
    forall c: nat
      ensures c in ActiveTemplates(t, day) <==> WasUsed(t, day, c)
      ensures WasUsed(t, day, c) ==> c in t.templateName && TemplateFits(t, day, c, TemplateRowOf(t, day, c))
    {
      TemplatesExactly(t, day, c);
      if WasUsed(t, day, c) { TemplateExactly(t, day, c); }
    }
  }

  lemma CreditIsSum(t: Tables, day: int, touch: Touches, c: nat)
    ensures Credit(t, day, touch)(c) == SumOver(t.contacts, CreditTo(touch, day, c))
  {
    GroupSumIsSum(t.contacts, CreditedTo(touch), Some(c), Credited(touch, day), RevenueOf(), CreditTo(touch, day, c));
  }

  /** The campaign upsert inserts one row per campaign that was sent that day, with the revenue its contacts' last touches
      credit to it. */
  lemma CampaignRowsExactly(t: Tables, day: int, touch: Touches)
    ensures forall k: CampaignKey :: k in CampaignRows(t, day, touch) <==> k.1 == day && WasSent(t, day, k.0)
    ensures CampaignsHold(t, day, touch, CampaignRows(t, day, touch))
  {
    forall c: nat
      ensures c in ActiveCampaigns(t, day) <==> WasSent(t, day, c)
      ensures CampaignFits(t, day, c, SumOver(t.contacts, CreditTo(touch, day, c)),
                           CampaignRowOf(t, day, c, Revenue(t, day, touch, c)))
    {
      CampaignsExactly(t, day, c);
      CreditIsSum(t, day, touch, c);
      CampaignExactly(t, day, c, Credit(t, day, touch)(c));
    }
  }

  /** The table has all these rows. */
  predicate Extends<K, R(==)>(rows: map<K, R>, table: map<K, R>) {
    forall k :: k in rows ==> k in table && table[k] == rows[k]
  }

  lemma GlobalStored(t: Tables, day: int, table: map<int, GlobalRow>)
    requires Extends(GlobalRowsOn(t, day), table)
    ensures GlobalHolds(t, day, table)
  {
    GlobalRowsExactly(t, day);
    assert day in GlobalRowsOn(t, day);
  }

  lemma HoursStored(t: Tables, day: int, table: map<HourKey, HourlyRow>)
    requires Extends(HourlyRowsOn(t, day), table)
    ensures HoursHold(t, day, table)
  {
    HourlyRowsExactly(t, day);
    forall h: int | HasMessageIn(t, day, h) ensures (day, h) in table && HourFits(t, day, h, table[(day, h)]) {
      assert (day, h) in HourlyRowsOn(t, day);
    }
  }

  lemma TemplatesStored(t: Tables, day: int, table: map<CampaignKey, TemplateRow>)
    requires Extends(TemplateRowsOn(t, day), table)
    ensures TemplatesHold(t, day, table)
  {
    TemplateRowsExactly(t, day);
    forall c: nat | WasUsed(t, day, c)
      ensures (c, day) in table && c in t.templateName && TemplateFits(t, day, c, table[(c, day)])
    {
      assert (c, day) in TemplateRowsOn(t, day);
    }
  }

  lemma CampaignsStored(t: Tables, day: int, touch: Touches, table: map<CampaignKey, CampaignRow>)
    requires Extends(CampaignRows(t, day, touch), table)
    ensures CampaignsHold(t, day, touch, table)
  {
    CampaignRowsExactly(t, day, touch);
    forall c: nat | WasSent(t, day, c)
      ensures (c, day) in table && CampaignFits(t, day, c, SumOver(t.contacts, CreditTo(touch, day, c)), table[(c, day)])
    {
      assert (c, day) in CampaignRows(t, day, touch);
    }
  }

  // ------------------------------------------------------------ sums over the stored rows

  /** A column of the rows a table stores for a day. */
  function Stored(table: map<CampaignKey, CampaignRow>, day: int, pick: CampaignRow -> int): nat -> int {
    (c: nat) => if (c, day) in table then pick(table[(c, day)]) else 0
  }

  function Anyone(): Recipient -> bool { (r: Recipient) => true }

  /** A count per campaign adds up over the campaigns that were sent that day. */
  lemma CountsAddUp(t: Tables, day: int, campaigns: seq<nat>, keep: Recipient -> bool, stored: nat -> int)
    requires Enumerates(campaigns, ActiveCampaigns(t, day))
    requires forall r :: keep(r) ==> MaybeOn(r.sentAt, day)
    requires forall c :: c in campaigns ==> stored(c) == GroupCount(t.recipients, CampaignOf(), c, keep)
    ensures SumOver(campaigns, stored) == CountWhere(t.recipients, keep)
  {
    forall i | 0 <= i < |t.recipients| && keep(t.recipients[i]) ensures CampaignOf()(t.recipients[i]) in campaigns {
      CampaignsExactly(t, day, t.recipients[i].campaign);
    }
    SumOverGroups(t.recipients, CampaignOf(), campaigns, keep, One(), stored);
    GroupsCoverAll(t.recipients, CampaignOf(), campaigns, keep, One());
    CountIsCardinality(t.recipients, keep, keep);
  }

  lemma StoredCounts(t: Tables, day: int, touch: Touches, table: map<CampaignKey, CampaignRow>, c: nat)
    requires CampaignsHold(t, day, touch, table) && WasSent(t, day, c)
    ensures var key := CampaignOf();
            && Stored(table, day, SentColumn())(c) == GroupCount(t.recipients, key, c, SentFrom(Anyone(), day))
            && Stored(table, day, DeliveredColumn())(c) == GroupCount(t.recipients, key, c, DeliveredFrom(Anyone(), day))
            && Stored(table, day, RespondedColumn())(c) == GroupCount(t.recipients, key, c, RespondedFrom(Anyone(), day))
  {
    GroupCountIsCardinality(t.recipients, CampaignOf(), c, SentFrom(Anyone(), day), SentFrom(OfCampaign(c), day));
    GroupCountIsCardinality(t.recipients, CampaignOf(), c, DeliveredFrom(Anyone(), day), DeliveredFrom(OfCampaign(c), day));
    GroupCountIsCardinality(t.recipients, CampaignOf(), c, RespondedFrom(Anyone(), day), RespondedFrom(OfCampaign(c), day));
  }

  /** Over the stored rows of a day each count adds up to the number of recipients it counts. */
  lemma StoredCountsAddUp(t: Tables, day: int, touch: Touches, table: map<CampaignKey, CampaignRow>, campaigns: seq<nat>)
    requires CampaignsHold(t, day, touch, table) && Enumerates(campaigns, ActiveCampaigns(t, day))
    ensures SumOver(campaigns, Stored(table, day, SentColumn())) == CountWhere(t.recipients, SentFrom(Anyone(), day))
    ensures SumOver(campaigns, Stored(table, day, DeliveredColumn())) == CountWhere(t.recipients, DeliveredFrom(Anyone(), day))
    ensures SumOver(campaigns, Stored(table, day, RespondedColumn())) == CountWhere(t.recipients, RespondedFrom(Anyone(), day))
  {
    forall c | c in campaigns
      ensures var key := CampaignOf();
              && Stored(table, day, SentColumn())(c) == GroupCount(t.recipients, key, c, SentFrom(Anyone(), day))
              && Stored(table, day, DeliveredColumn())(c) == GroupCount(t.recipients, key, c, DeliveredFrom(Anyone(), day))
              && Stored(table, day, RespondedColumn())(c) == GroupCount(t.recipients, key, c, RespondedFrom(Anyone(), day))
    {
      CampaignsExactly(t, day, c);
      StoredCounts(t, day, touch, table, c);
    }
    CountsAddUp(t, day, campaigns, SentFrom(Anyone(), day), Stored(table, day, SentColumn()));
    CountsAddUp(t, day, campaigns, DeliveredFrom(Anyone(), day), Stored(table, day, DeliveredColumn()));
    CountsAddUp(t, day, campaigns, RespondedFrom(Anyone(), day), Stored(table, day, RespondedColumn()));
  }

  lemma StoredRevenueIsCents(t: Tables, day: int, touch: Touches, table: map<CampaignKey, CampaignRow>, c: nat)
    requires CampaignsHold(t, day, touch, table) && WasSent(t, day, c)
    ensures Stored(table, day, RevenueColumn())(c) == Money.HalfUp(Credit(t, day, touch)(c), 100)
  {
    var credit := SumOver(t.contacts, CreditTo(touch, day, c));
    CreditIsSum(t, day, touch, c);
    Money.HalfUpNearest(credit, 100);
    Money.NearestUnique(table[(c, day)].revenue, Money.HalfUp(credit, 100), credit, 100);
  }

  /** Over the stored rows of a day revenue adds up to that of the contacts who answered that day, within half a cent per
      row, and exactly when every contact's revenue is in whole cents. */
  lemma StoredRevenueAddsUp(t: Tables, day: int, window: nat, touch: Touches, table: map<CampaignKey, CampaignRow>,
                            campaigns: seq<nat>)
    requires IsLastTouch(t.recipients, day, window, touch) && CampaignsHold(t, day, touch, table)
    requires Enumerates(campaigns, ActiveCampaigns(t, day))
    ensures var stored := SumOver(campaigns, Stored(table, day, RevenueColumn()));
            var answered := SumIf(t.contacts, Answered(t, day), RevenueOf());
            && -(|campaigns| * 100) <= 2 * (stored * 100 - answered) <= |campaigns| * 100
            && (WholeCents(t) ==> stored * 100 == answered)
  {
    var column := Stored(table, day, RevenueColumn());
    forall c | c in campaigns ensures column(c) == Money.HalfUp(Credit(t, day, touch)(c), 100) {
      CampaignsExactly(t, day, c);
      StoredRevenueIsCents(t, day, touch, table, c);
    }
    CreditConserved(t, day, window, touch, campaigns);
    SumWithin(campaigns, Credit(t, day, touch), column, 100);
    if WholeCents(t) {
      forall c | c in campaigns ensures Credit(t, day, touch)(c) % 100 == 0 {
        GroupSumWhole(t.contacts, CreditedTo(touch), Some(c), Credited(touch, day), RevenueOf(), 100);
      }
      SumExact(campaigns, Credit(t, day, touch), column, 100);
    }
  }
}
