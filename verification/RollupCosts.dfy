/** Cost columns across the rollups: each row rounds its own sum to four places, so a template's row need not be the sum
    of its campaigns' rows. */
module RollupCosts {
  import opened Grouping
  import opened Rollups
  import opened RoundedSums
  import opened Wrappers

  /** The campaigns' rows add up to the template's row in all three rounded columns. */
  predicate CostsReconcile(t: Tables, day: int, template: nat, campaigns: seq<nat>, revenue: nat -> int)
    requires template in t.templateName
  {
    var row := TemplateRowOf(t, day, template);
    && SumOver(campaigns, Column(t, day, revenue, MessageCostColumn())) == row.messageCost
    && SumOver(campaigns, Column(t, day, revenue, AiSpendColumn())) == row.aiSpend
    && SumOver(campaigns, Column(t, day, revenue, TotalCostColumn())) == row.totalCost
  }

  /** Before rounding the costs regroup exactly. */
  lemma FineCosts(t: Tables, day: int, template: nat, campaigns: seq<nat>)
    requires Enumerates(campaigns, CampaignsUsing(t, day, template))
    ensures SumOver(campaigns, CampaignMessageCost(t, day)) == TemplateMessageCost(t, day, template)
    ensures SumOver(campaigns, CampaignSpend(t, day)) == TemplateSpend(t, day, template)
  {
    SendsCoarsen(t, day, template, campaigns);
    SpendsCoarsen(t, day, template, campaigns);
    SumOverGroups(AllSends(t), SendCampaign(), campaigns, Billable(day), SendCost(), CampaignMessageCost(t, day));
    SumOverGroups(AllSpends(t), SpendCampaign(), campaigns, SpentOn(day), SpendCost(), CampaignSpend(t, day));
  }

  /** The Meta cost is a multiple of the delivered count and regroups exactly, and the totals differ by what the two
      rounded columns differ. */
  lemma MetaCostReconciles(t: Tables, day: int, template: nat, campaigns: seq<nat>, revenue: nat -> int)
    requires template in t.templateName && Enumerates(campaigns, CampaignsUsing(t, day, template))
    ensures var row := TemplateRowOf(t, day, template);
            && SumOver(campaigns, Column(t, day, revenue, MetaCostColumn())) == row.metaCostAed
            && SumOver(campaigns, Column(t, day, revenue, TotalCostColumn())) - row.totalCost ==
                 SumOver(campaigns, Column(t, day, revenue, MessageCostColumn())) - row.messageCost
                 + SumOver(campaigns, Column(t, day, revenue, AiSpendColumn())) - row.aiSpend
  {
    var messageCost, aiSpend := Column(t, day, revenue, MessageCostColumn()), Column(t, day, revenue, AiSpendColumn());
    var delivered := Column(t, day, revenue, DeliveredColumn());
    TemplateCountsReconcile(t, day, template, campaigns, revenue);
    SumLinear(campaigns, Column(t, day, revenue, TotalCostColumn()), aiSpend, messageCost, delivered, META_USD);
    SumLinear(campaigns, Column(t, day, revenue, MetaCostColumn()), Zero(), Zero(), delivered, META_AED);
    SumZero(campaigns);
  }

  lemma CampaignRowStores(t: Tables, day: int, revenue: nat -> int, c: nat)
    ensures Column(t, day, revenue, MessageCostColumn())(c) == StoredCost(CampaignMessageCost(t, day)(c))
    ensures Column(t, day, revenue, AiSpendColumn())(c) == StoredCost(CampaignSpend(t, day)(c))
  {
  }

  lemma TemplateRowStores(t: Tables, day: int, template: nat)
    requires template in t.templateName
    ensures TemplateRowOf(t, day, template).messageCost == StoredCost(TemplateMessageCost(t, day, template))
    ensures TemplateRowOf(t, day, template).aiSpend == StoredCost(TemplateSpend(t, day, template))
  {
  }

  /** Each campaign's row holds its own rounded sum, and the template's row the rounded sum of them all. */
  lemma ColumnsAreStored(t: Tables, day: int, template: nat, campaigns: seq<nat>, revenue: nat -> int)
    requires template in t.templateName && Enumerates(campaigns, CampaignsUsing(t, day, template))
    ensures forall c :: Column(t, day, revenue, MessageCostColumn())(c) == StoredCost(CampaignMessageCost(t, day)(c))
    ensures forall c :: Column(t, day, revenue, AiSpendColumn())(c) == StoredCost(CampaignSpend(t, day)(c))
    ensures var row := TemplateRowOf(t, day, template);
            && row.messageCost == StoredCost(SumOver(campaigns, CampaignMessageCost(t, day)))
            && row.aiSpend == StoredCost(SumOver(campaigns, CampaignSpend(t, day)))
  {
    forall c
      ensures Column(t, day, revenue, MessageCostColumn())(c) == StoredCost(CampaignMessageCost(t, day)(c))
      ensures Column(t, day, revenue, AiSpendColumn())(c) == StoredCost(CampaignSpend(t, day)(c))
    {
      CampaignRowStores(t, day, revenue, c);
    }
    TemplateRowStores(t, day, template);
    FineCosts(t, day, template, campaigns);
  }

  /** For k campaigns each rounded column is off by at most (k + 1) / 2 units of the fourth place, the total by k + 1. */
  lemma CostsWithin(t: Tables, day: int, template: nat, campaigns: seq<nat>, revenue: nat -> int)
    requires template in t.templateName && Enumerates(campaigns, CampaignsUsing(t, day, template))
    ensures var row := TemplateRowOf(t, day, template); var k := |campaigns|;
            && -(k + 1) <= 2 * (SumOver(campaigns, Column(t, day, revenue, MessageCostColumn())) - row.messageCost) <= k + 1
            && -(k + 1) <= 2 * (SumOver(campaigns, Column(t, day, revenue, AiSpendColumn())) - row.aiSpend) <= k + 1
            && -(k + 1) <= SumOver(campaigns, Column(t, day, revenue, TotalCostColumn())) - row.totalCost <= k + 1
  {
    ColumnsAreStored(t, day, template, campaigns, revenue);
    MetaCostReconciles(t, day, template, campaigns, revenue);
    TwoRoundingsWithin(campaigns, CampaignMessageCost(t, day), Column(t, day, revenue, MessageCostColumn()), COST_PARTS);
    TwoRoundingsWithin(campaigns, CampaignSpend(t, day), Column(t, day, revenue, AiSpendColumn()), COST_PARTS);
  }

  /** Every source cost has at most four places. */
  predicate WholeCosts(t: Tables) {
    && (forall i :: 0 <= i < |t.messages| ==> OrZero(t.messages[i].cost) % COST_PARTS == 0)
    && (forall i :: 0 <= i < |t.events| ==> OrZero(t.events[i].cost) % COST_PARTS == 0)
  }

  lemma GroupsWhole(t: Tables, day: int, c: nat)
    requires WholeCosts(t)
    ensures CampaignMessageCost(t, day)(c) % COST_PARTS == 0 && CampaignSpend(t, day)(c) % COST_PARTS == 0
  {
    forall i | 0 <= i < |AllSends(t)| ensures SendCost()(AllSends(t)[i]) % COST_PARTS == 0 {
      SendsMatch(t.recipients, t.messages, i);
    }
    forall i | 0 <= i < |AllSpends(t)| ensures SpendCost()(AllSpends(t)[i]) % COST_PARTS == 0 {
      SpendsMatch(AllSends(t), t.events, i);
    }
    GroupSumWhole(AllSends(t), SendCampaign(), c, Billable(day), SendCost(), COST_PARTS);
    GroupSumWhole(AllSpends(t), SpendCampaign(), c, SpentOn(day), SpendCost(), COST_PARTS);
  }

  /** With costs of at most four places, or with at most one campaign, the rows reconcile. */
  lemma CostsReconcileWhen(t: Tables, day: int, template: nat, campaigns: seq<nat>, revenue: nat -> int)
    requires template in t.templateName && Enumerates(campaigns, CampaignsUsing(t, day, template))
    requires WholeCosts(t) || |campaigns| <= 1
    ensures CostsReconcile(t, day, template, campaigns, revenue)
  {
    if WholeCosts(t) {
      forall c: nat
        ensures CampaignMessageCost(t, day)(c) % COST_PARTS == 0 && CampaignSpend(t, day)(c) % COST_PARTS == 0
      {
        GroupsWhole(t, day, c);
      }
    }
    ColumnsAreStored(t, day, template, campaigns, revenue);
    MetaCostReconciles(t, day, template, campaigns, revenue);
    TwoRoundingsAgree(campaigns, CampaignMessageCost(t, day), Column(t, day, revenue, MessageCostColumn()), COST_PARTS);
    TwoRoundingsAgree(campaigns, CampaignSpend(t, day), Column(t, day, revenue, AiSpendColumn()), COST_PARTS);
  }

  // ------------------------------------------------------------ two campaigns

  // Campaigns 0 to n - 1 use template 0 on day 0; the first two have a message and an AI event of 0.001260 each.

  function Sender(k: nat, message: Option<nat>): Recipient {
    Recipient(k, k, message, Dispatched, Some(0), None, None, false)
  }

  function Letter(k: nat): Message { Message(k, k, Outbound, Sent, 0, None) }

  function Call(k: nat): AiEvent { AiEvent(k, 0, Some(1260), false) }

  function Silent(n: nat): seq<Recipient>
    requires n >= 2
  {
    seq(n - 2, i requires 0 <= i < n - 2 => Sender(i + 2, None))
  }

  function Spread(n: nat): Tables
    requires n >= 2
  {
    Tables([Letter(0), Letter(1)], [Call(0), Call(1)],
           [Sender(0, Some(0)), Sender(1, Some(1))] + Silent(n),
           [], map c | c in UpTo(n) :: 0, map[0 := ""])
  }

  function UpTo(n: nat): seq<nat> { seq(n, i requires 0 <= i < n => i) }

  lemma SpreadCampaigns(n: nat)
    requires n >= 2
    ensures NonNegative(Spread(n)) && |UpTo(n)| == n
    ensures Enumerates(UpTo(n), CampaignsUsing(Spread(n), 0, 0))
  {
    var t := Spread(n);
    forall c: nat | c < n ensures c in CampaignsUsing(t, 0, 0) && c in UpTo(n) {
      assert t.recipients[c] in t.recipients && t.recipients[c].campaign == c && IsOn(t.recipients[c].sentAt, 0);
      assert UpTo(n)[c] == c;
    }
  }

  lemma {:induction false} SilentSendNothing(rs: seq<Recipient>, messages: seq<Message>)
    requires forall i :: 0 <= i < |rs| ==> rs[i].message == None
    ensures Sends(rs, messages) == []
  {
    if rs != [] {
      NoMessage(rs[0], messages);
      SilentSendNothing(rs[1..], messages);
    }
  }

  lemma {:induction false} NoMessage(r: Recipient, messages: seq<Message>)
    requires r.message == None
    ensures SendsOf(r, messages) == []
  {
    if messages != [] { NoMessage(r, messages[1..]); }
  }

  lemma SendsOfTwo(r: Recipient, a: Message, b: Message)
    ensures SendsOf(r, [a, b]) == (if r.message == Some(a.id) then [Send(r, a)] else [])
                                + (if r.message == Some(b.id) then [Send(r, b)] else [])
  {
    assert [a, b][1..] == [b] && [b][1..] == [];
    assert SendsOf(r, []) == [];
    assert SendsOf(r, [b]) == if r.message == Some(b.id) then [Send(r, b)] else [];
  }

  lemma SendsOfThree(a: Recipient, b: Recipient, rest: seq<Recipient>, messages: seq<Message>)
    ensures Sends([a, b] + rest, messages) == SendsOf(a, messages) + (SendsOf(b, messages) + Sends(rest, messages))
  {
    assert ([a, b] + rest)[1..] == [b] + rest && ([b] + rest)[1..] == rest;
  }

  lemma SpendsOfTwo(s: Send, a: AiEvent, b: AiEvent)
    ensures SpendsOf(s, [a, b]) == (if a.conversation == s.message.conversation then [Spend(s.recipient, s.message, a)] else [])
                                 + (if b.conversation == s.message.conversation then [Spend(s.recipient, s.message, b)] else [])
  {
    assert [a, b][1..] == [b] && [b][1..] == [];
    assert SpendsOf(s, []) == [];
    assert SpendsOf(s, [b]) == if b.conversation == s.message.conversation then [Spend(s.recipient, s.message, b)] else [];
  }

  lemma SpendsTwo(a: Send, b: Send, events: seq<AiEvent>)
    ensures Spends([a, b], events) == SpendsOf(a, events) + SpendsOf(b, events)
  {
    assert [a, b][1..] == [b] && [b][1..] == [];
    assert Spends([], events) == [];
    assert Spends([b], events) == SpendsOf(b, events);
  }

  lemma GroupSumTwo(a: Spend, b: Spend, c: nat, keep: Spend -> bool, val: Spend -> int)
    ensures GroupSum([a, b], SpendCampaign(), c, keep, val) ==
            (if keep(a) && a.recipient.campaign == c then val(a) else 0) + (if keep(b) && b.recipient.campaign == c then val(b) else 0)
  {
    assert [a, b][1..] == [b] && [b][1..] == [];
    assert GroupSum([], SpendCampaign(), c, keep, val) == 0;
    assert GroupSum([b], SpendCampaign(), c, keep, val) == if keep(b) && b.recipient.campaign == c then val(b) else 0;
  }

  function OwnSend(k: nat): Send { Send(Sender(k, Some(k)), Letter(k)) }

  function OwnSpend(k: nat): Spend { Spend(Sender(k, Some(k)), Letter(k), Call(k)) }

  lemma SpreadSends(n: nat)
    requires n >= 2
    ensures AllSends(Spread(n)) == [OwnSend(0), OwnSend(1)]
  {
    var r0, r1, messages := Sender(0, Some(0)), Sender(1, Some(1)), [Letter(0), Letter(1)];
    SilentSendNothing(Silent(n), messages);
    SendsOfThree(r0, r1, Silent(n), messages);
    SendsOfTwo(r0, Letter(0), Letter(1));
    SendsOfTwo(r1, Letter(0), Letter(1));
  }

  lemma OwnSpends()
    ensures Spends([OwnSend(0), OwnSend(1)], [Call(0), Call(1)]) == [OwnSpend(0), OwnSpend(1)]
  {
    SpendsTwo(OwnSend(0), OwnSend(1), [Call(0), Call(1)]);
    SpendsOfTwo(OwnSend(0), Call(0), Call(1));
    SpendsOfTwo(OwnSend(1), Call(0), Call(1));
  }

  lemma SpreadCosts(n: nat, c: nat)
    requires n >= 2
    ensures CampaignSpend(Spread(n), 0)(c) == (if c < 2 then 1260 else 0)
  {
    SpreadSends(n);
    OwnSpends();
    GroupSumTwo(OwnSpend(0), OwnSpend(1), c, SpentOn(0), SpendCost());
  }

  lemma SpreadColumn(n: nat, revenue: nat -> int, c: nat)
    requires n >= 2
    ensures Column(Spread(n), 0, revenue, AiSpendColumn())(c) == if c < 2 then 13 else 0
  {
    SpreadCosts(n, c);
    CampaignRowStores(Spread(n), 0, revenue, c);
  }

  lemma SpreadTemplate(n: nat)
    requires n >= 2
    ensures TemplateRowOf(Spread(n), 0, 0).aiSpend == 25
  {
    SpreadCampaigns(n);
    TemplateRowStores(Spread(n), 0, 0);
    FineCosts(Spread(n), 0, 0, UpTo(n));
    forall c: nat ensures CampaignSpend(Spread(n), 0)(c) == if c < 2 then 1260 else 0 { SpreadCosts(n, c); }
    FirstTwo(n, CampaignSpend(Spread(n), 0), 1260);
  }

  /** Two campaigns of 0.001260 each hold 0.0013 twice, their template 0.0025; further campaigns change nothing. */
  lemma TwoCampaignsDisagree(n: nat, revenue: nat -> int)
    requires n >= 2
    ensures NonNegative(Spread(n)) && Enumerates(UpTo(n), CampaignsUsing(Spread(n), 0, 0)) && |UpTo(n)| == n
    ensures SumOver(UpTo(n), Column(Spread(n), 0, revenue, AiSpendColumn())) == 26
    ensures TemplateRowOf(Spread(n), 0, 0).aiSpend == 25
  {
    SpreadCampaigns(n);
    SpreadTemplate(n);
    forall c: nat ensures Column(Spread(n), 0, revenue, AiSpendColumn())(c) == if c < 2 then 13 else 0 {
      SpreadColumn(n, revenue, c);
    }
    FirstTwo(n, Column(Spread(n), 0, revenue, AiSpendColumn()), 13);
  }

  lemma FirstTwo(n: nat, f: nat -> int, x: int)
    requires n >= 2 && forall c: nat :: f(c) == if c < 2 then x else 0
    ensures SumOver(UpTo(n), f) == 2 * x
  {
    var ks := UpTo(n);
    var rest := ks[1..][1..];
    forall k | k in rest ensures f(k) == 0 {
      var i :| 0 <= i < |rest| && rest[i] == k;
      assert rest[i] == ks[i + 2];
    }
    SumOfZeros(rest, f);
  }

  /** Whatever the tables with n campaigns of a template hold, the rows reconcile. */
  ghost predicate CountSuffices(n: nat, revenue: nat -> int) {
    forall t: Tables, day: int, template: nat, campaigns: seq<nat> ::
      template in t.templateName && Enumerates(campaigns, CampaignsUsing(t, day, template)) && |campaigns| == n ==>
        CostsReconcile(t, day, template, campaigns, revenue)
  }

  /** For all costs the campaigns' rows add up to the template's row if and only if at most one campaign uses the template
      that day. */
  lemma CostsReconcileIff(n: nat, revenue: nat -> int)
    ensures CountSuffices(n, revenue) <==> n <= 1
  {
    if n <= 1 {
      forall t: Tables, day: int, template: nat, campaigns: seq<nat> |
        template in t.templateName && Enumerates(campaigns, CampaignsUsing(t, day, template)) && |campaigns| == n
        ensures CostsReconcile(t, day, template, campaigns, revenue)
      {
        CostsReconcileWhen(t, day, template, campaigns, revenue);
      }
    } else {
      TwoCampaignsDisagree(n, revenue);
      assert !CostsReconcile(Spread(n), 0, 0, UpTo(n), revenue);
    }
  }
}
