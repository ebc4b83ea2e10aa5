/** What a day's rollup rows say, read off the source tables row by row: each count as a number of rows, each cost as the
    rounded sum over the joined rows. */
module RollupRows {
  import opened Grouping
  import opened Rollups
  import opened Wrappers

  predicate On(at: int, day: int) { 86400000000 * day <= at < 86400000000 * (day + 1) }

  predicate MaybeOn(at: Option<int>, day: int) {
    match at
    case None => false
    case Some(time) => On(time, day)
  }

  /** The ratio n / d to four places, capped at 1, and 0 when there is nothing to divide by. */
  predicate IsRatio(rate: int, n: nat, d: nat) {
    if d == 0 then rate == 0 else if n >= d then rate == 10000 else Money.NearestAway(rate, n * 10000, d)
  }

  /** An amount with two places more, rounded half away from zero. */
  predicate Rounds(stored: int, exact: int) { Money.NearestAway(stored, exact, 100) }

  function Amount(cost: Option<int>): int {
    match cost
    case None => 0
    case Some(amount) => amount
  }

  // ------------------------------------------------------------ the global row

  function OutboundOn(day: int, statuses: set<Delivery>): Message -> bool {
    (m: Message) => m.direction == Outbound && On(m.createdAt, day) && m.delivery in statuses
  }

  function InboundOn(day: int): Message -> bool { (m: Message) => m.direction == Inbound && On(m.createdAt, day) }

  function CalledOn(day: int, failed: set<bool>): AiEvent -> bool {
    (e: AiEvent) => On(e.createdAt, day) && e.errored in failed
  }

  function SpentOnDay(day: int): AiEvent -> int { (e: AiEvent) => if On(e.createdAt, day) then Amount(e.cost) else 0 }

  function DeliveredCost(day: int): Message -> int {
    (m: Message) => if m.direction == Outbound && On(m.createdAt, day) && m.delivery in {Delivered, Read} then Amount(m.cost) else 0
  }

  predicate GlobalFits(t: Tables, day: int, row: GlobalRow) {
    && row.sent == CountWhere(t.messages, OutboundOn(day, {Queued, Sent, Delivered, Read}))
    && row.delivered == CountWhere(t.messages, OutboundOn(day, {Delivered, Read}))
    && row.failed == CountWhere(t.messages, OutboundOn(day, {Failed}))
    && row.received == CountWhere(t.messages, InboundOn(day))
    && row.aiCalls == CountWhere(t.events, CalledOn(day, {false, true}))
    && row.aiErrors == CountWhere(t.events, CalledOn(day, {true}))
    && Rounds(row.aiSpend, SumOver(t.events, SpentOnDay(day)))
    && Rounds(row.messageCost, SumOver(t.messages, DeliveredCost(day)))
    && row.metaCostAed == 1800 * row.delivered
    && row.totalCost == row.aiSpend + row.messageCost + 490 * row.delivered
    && IsRatio(row.responseRate, row.received, row.sent)
  }

  lemma RateIsRatio(n: nat, d: nat)
    ensures IsRatio(Rate(n, d), n, d)
  {
    if 0 < d && n < d { Money.HalfUpNearest(n * 10000, d); }
  }

  lemma StoredRounds(sum: int)
    ensures Rounds(StoredCost(sum), sum)
  {
    Money.HalfUpNearest(sum, 100);
  }

  /** What NOT IN leaves of the seven statuses. */
  lemma StatusesLeft(d: Delivery)
    ensures d !in {Draft, Pending, Failed} <==> d in {Queued, Sent, Delivered, Read}
    ensures d !in {Draft, Pending} <==> d in {Queued, Sent, Delivered, Read, Failed}
  {
    match d
    case Pending =>
    case Draft =>
    case Queued =>
    case Sent =>
    case Delivered =>
    case Read =>
    case Failed =>
  }

  lemma GlobalCounts(t: Tables, day: int)
    ensures var row := GlobalOf(t, day);
            && row.sent == CountWhere(t.messages, OutboundOn(day, {Queued, Sent, Delivered, Read}))
            && row.delivered == CountWhere(t.messages, OutboundOn(day, {Delivered, Read}))
            && row.failed == CountWhere(t.messages, OutboundOn(day, {Failed}))
            && row.received == CountWhere(t.messages, InboundOn(day))
            && row.aiCalls == CountWhere(t.events, CalledOn(day, {false, true}))
            && row.aiErrors == CountWhere(t.events, CalledOn(day, {true}))
  {
    forall i | 0 <= i < |t.messages|
      ensures SentOn(day)(t.messages[i]) <==> OutboundOn(day, {Queued, Sent, Delivered, Read})(t.messages[i])
    {
      StatusesLeft(t.messages[i].delivery);
    }
    CountIsCardinality(t.messages, SentOn(day), OutboundOn(day, {Queued, Sent, Delivered, Read}));
    CountIsCardinality(t.messages, DeliveredOn(day), OutboundOn(day, {Delivered, Read}));
    CountIsCardinality(t.messages, FailedOn(day), OutboundOn(day, {Failed}));
    CountIsCardinality(t.messages, ReceivedOn(day), InboundOn(day));
    CountIsCardinality(t.events, EventOn(day), CalledOn(day, {false, true}));
    CountIsCardinality(t.events, ErrorOn(day), CalledOn(day, {true}));
  }

  /** The global row counts each message and event of the day in exactly the columns its direction and status call for,
      and rounds each cost sum once. */
  lemma GlobalExactly(t: Tables, day: int)
    ensures GlobalFits(t, day, GlobalOf(t, day))
  {
    var row := GlobalOf(t, day);
    GlobalCounts(t, day);
    SumIfIsSum(t.events, EventOn(day), EventCost(), SpentOnDay(day));
    SumIfIsSum(t.messages, DeliveredOn(day), MessageCost(), DeliveredCost(day));
    StoredRounds(SumOver(t.events, SpentOnDay(day)));
    StoredRounds(SumOver(t.messages, DeliveredCost(day)));
    RateIsRatio(row.received, row.sent);
  }

  // ------------------------------------------------------------ hourly rows

  /** Within the hour-th hour of the day. */
  predicate InHour(at: int, day: int, hour: int) {
    && 0 <= hour < 24
    && 86400000000 * day + 3600000000 * hour <= at < 86400000000 * day + 3600000000 * (hour + 1)
  }

  function OutboundIn(day: int, hour: int): Message -> bool {
    (m: Message) =>
      m.direction == Outbound && InHour(m.createdAt, day, hour) && m.delivery in {Queued, Sent, Delivered, Read, Failed}
  }

  function InboundIn(day: int, hour: int): Message -> bool {
    (m: Message) => m.direction == Inbound && InHour(m.createdAt, day, hour)
  }

  predicate HourFits(t: Tables, day: int, hour: int, row: HourlyRow) {
    && row.sent == CountWhere(t.messages, OutboundIn(day, hour))
    && row.received == CountWhere(t.messages, InboundIn(day, hour))
    && IsRatio(row.responseRate, row.received, row.sent)
  }

  lemma HourIsRange(at: int, day: int, hour: int)
    ensures InHour(at, day, hour) <==> On(at, day) && HourOf(at) == hour
  {
    var within := at - 86400000000 * day;
    if 0 <= within < 86400000000 {
      assert at / 86400000000 == day;
      assert at % 86400000000 == within;
    }
  }

  /** An hourly row counts the messages of its hour. */
  lemma HourExactly(t: Tables, day: int, hour: int)
    ensures HourFits(t, day, hour, HourlyOf(t, day, hour))
  {
    forall i | 0 <= i < |t.messages|
      ensures AttemptedOn(day)(t.messages[i]) && MessageHour()(t.messages[i]) == hour <==> OutboundIn(day, hour)(t.messages[i])
      ensures ReceivedOn(day)(t.messages[i]) && MessageHour()(t.messages[i]) == hour <==> InboundIn(day, hour)(t.messages[i])
    {
      StatusesLeft(t.messages[i].delivery);
      HourIsRange(t.messages[i].createdAt, day, hour);
    }
    GroupCountIsCardinality(t.messages, MessageHour(), hour, AttemptedOn(day), OutboundIn(day, hour));
    GroupCountIsCardinality(t.messages, MessageHour(), hour, ReceivedOn(day), InboundIn(day, hour));
    RateIsRatio(HourlyOf(t, day, hour).received, HourlyOf(t, day, hour).sent);
  }

  /** There is a row for an hour exactly when a message falls into it. */
  lemma HoursExactly(t: Tables, day: int, hour: int)
    ensures hour in ActiveHours(t, day) <==> exists i :: 0 <= i < |t.messages| && InHour(t.messages[i].createdAt, day, hour)
  {
    if hour in ActiveHours(t, day) {
      var m :| m in t.messages && OnDay(m.createdAt, day) && HourOf(m.createdAt) == hour;
      HourIsRange(m.createdAt, day, hour);
      var i :| 0 <= i < |t.messages| && t.messages[i] == m;
      assert InHour(t.messages[i].createdAt, day, hour);
    }
    if i :| 0 <= i < |t.messages| && InHour(t.messages[i].createdAt, day, hour) {
      HourIsRange(t.messages[i].createdAt, day, hour);
      assert t.messages[i] in t.messages;
    }
  }

  // ------------------------------------------------------------ campaign and template rows

  function SentFrom(mine: Recipient -> bool, day: int): Recipient -> bool {
    (r: Recipient) => mine(r) && MaybeOn(r.sentAt, day) && r.status in {Dispatched, Arrived, Undelivered}
  }

  function DeliveredFrom(mine: Recipient -> bool, day: int): Recipient -> bool {
    (r: Recipient) => mine(r) && MaybeOn(r.sentAt, day) && MaybeOn(r.deliveredAt, day)
  }

  function FailedFrom(mine: Recipient -> bool, day: int): Recipient -> bool {
    (r: Recipient) => mine(r) && MaybeOn(r.sentAt, day) && MaybeOn(r.failedAt, day)
  }

  function RespondedFrom(mine: Recipient -> bool, day: int): Recipient -> bool {
    (r: Recipient) => mine(r) && MaybeOn(r.sentAt, day) && r.responded
  }

  /** The cost of a recipient's message, if it went out. */
  function CostFor(r: Recipient): Message -> int {
    (m: Message) => if r.message == Some(m.id) && m.delivery in {Sent, Delivered, Read, Failed} then Amount(m.cost) else 0
  }

  function EventFor(m: Message, day: int): AiEvent -> int {
    (e: AiEvent) => if e.conversation == m.conversation && On(e.createdAt, day) then Amount(e.cost) else 0
  }

  /** The day's AI cost of the conversation a recipient's message belongs to. */
  function SpendFor(r: Recipient, events: seq<AiEvent>, day: int): Message -> int {
    (m: Message) => if r.message == Some(m.id) then SumOver(events, EventFor(m, day)) else 0
  }

  function CostFrom(mine: Recipient -> bool, messages: seq<Message>, day: int): Recipient -> int {
    (r: Recipient) => if mine(r) && MaybeOn(r.sentAt, day) then SumOver(messages, CostFor(r)) else 0
  }

  function SpendFrom(mine: Recipient -> bool, messages: seq<Message>, events: seq<AiEvent>, day: int): Recipient -> int {
    (r: Recipient) => if mine(r) && MaybeOn(r.sentAt, day) then SumOver(messages, SpendFor(r, events, day)) else 0
  }

  lemma {:induction false} OneCost<K>(r: Recipient, messages: seq<Message>, day: int, key: Send -> K, k: K, mine: Recipient -> bool)
    requires forall s: Send :: key(s) == k <==> mine(s.recipient)
    ensures GroupSum(SendsOf(r, messages), key, k, Billable(day), SendCost()) ==
            if mine(r) && MaybeOn(r.sentAt, day) then SumOver(messages, CostFor(r)) else 0
  {
    if messages != [] {
      OneCost(r, messages[1..], day, key, k, mine);
      var head := if r.message == Some(messages[0].id) then [Send(r, messages[0])] else [];
      GroupSumAppend(head, SendsOf(r, messages[1..]), key, k, Billable(day), SendCost());
    }
  }

  lemma {:induction false} CostIsJoined<K>(
      recipients: seq<Recipient>, messages: seq<Message>, day: int, key: Send -> K, k: K, mine: Recipient -> bool)
    requires forall s: Send :: key(s) == k <==> mine(s.recipient)
    ensures GroupSum(Sends(recipients, messages), key, k, Billable(day), SendCost()) ==
            SumOver(recipients, CostFrom(mine, messages, day))
  {
    if recipients != [] {
      CostIsJoined(recipients[1..], messages, day, key, k, mine);
      OneCost(recipients[0], messages, day, key, k, mine);
      GroupSumAppend(SendsOf(recipients[0], messages), Sends(recipients[1..], messages), key, k, Billable(day), SendCost());
    }
  }

  lemma {:induction false} OneSpend<K>(s: Send, events: seq<AiEvent>, day: int, key: Spend -> K, k: K, mine: Recipient -> bool)
    requires forall x: Spend :: key(x) == k <==> mine(x.recipient)
    ensures GroupSum(SpendsOf(s, events), key, k, SpentOn(day), SpendCost()) ==
            if mine(s.recipient) && MaybeOn(s.recipient.sentAt, day) then SumOver(events, EventFor(s.message, day)) else 0
  {
    if events != [] {
      OneSpend(s, events[1..], day, key, k, mine);
      var head := if events[0].conversation == s.message.conversation then [Spend(s.recipient, s.message, events[0])] else [];
      GroupSumAppend(head, SpendsOf(s, events[1..]), key, k, SpentOn(day), SpendCost());
    }
  }

  lemma {:induction false} RecipientSpend<K>(
      r: Recipient, messages: seq<Message>, events: seq<AiEvent>, day: int, key: Spend -> K, k: K, mine: Recipient -> bool)
    requires forall x: Spend :: key(x) == k <==> mine(x.recipient)
    ensures GroupSum(Spends(SendsOf(r, messages), events), key, k, SpentOn(day), SpendCost()) ==
            if mine(r) && MaybeOn(r.sentAt, day) then SumOver(messages, SpendFor(r, events, day)) else 0
  {
    if messages != [] {
      RecipientSpend(r, messages[1..], events, day, key, k, mine);
      if r.message == Some(messages[0].id) {
        var s := Send(r, messages[0]);
        OneSpend(s, events, day, key, k, mine);
        var rest := SendsOf(r, messages[1..]);
        assert SendsOf(r, messages) == [s] + rest && ([s] + rest)[1..] == rest;
        GroupSumAppend(SpendsOf(s, events), Spends(rest, events), key, k, SpentOn(day), SpendCost());
      } else {
        assert SendsOf(r, messages) == SendsOf(r, messages[1..]);
      }
    }
  }

  lemma {:induction false} SpendsAppend(a: seq<Send>, b: seq<Send>, events: seq<AiEvent>)
    ensures Spends(a + b, events) == Spends(a, events) + Spends(b, events)
  {
    if a == [] {
      assert a + b == b;
    } else {
      assert (a + b)[0] == a[0] && (a + b)[1..] == a[1..] + b;
      SpendsAppend(a[1..], b, events);
    }
  }

  lemma {:induction false} SpendIsJoined<K>(
      recipients: seq<Recipient>, messages: seq<Message>, events: seq<AiEvent>, day: int,
      key: Spend -> K, k: K, mine: Recipient -> bool)
    requires forall x: Spend :: key(x) == k <==> mine(x.recipient)
    ensures GroupSum(Spends(Sends(recipients, messages), events), key, k, SpentOn(day), SpendCost()) ==
            SumOver(recipients, SpendFrom(mine, messages, events, day))
  {
    if recipients != [] {
      var first, rest := SendsOf(recipients[0], messages), Sends(recipients[1..], messages);
      SpendIsJoined(recipients[1..], messages, events, day, key, k, mine);
      RecipientSpend(recipients[0], messages, events, day, key, k, mine);
      SpendsAppend(first, rest, events);
      GroupSumAppend(Spends(first, events), Spends(rest, events), key, k, SpentOn(day), SpendCost());
    }
  }

  /** Revenue over cost to four places, capped at the column's ceiling; NULL exactly at zero cost. */
  predicate IsReturn(roi: Option<int>, revenue: int, cost: int) {
    match roi
    case None => cost == 0
    case Some(ratio) =>
      cost != 0 && (cost > 0 ==>
        if revenue * 1000000 >= 9999999999 * cost then ratio == 9999999999
        else Money.NearestAway(ratio, revenue * 1000000, cost))
  }

  function OfCampaign(c: nat): Recipient -> bool { (r: Recipient) => r.campaign == c }

  predicate CampaignCountsFit(t: Tables, day: int, c: nat, row: CampaignRow) {
    && row.sent == CountWhere(t.recipients, SentFrom(OfCampaign(c), day))
    && row.delivered == CountWhere(t.recipients, DeliveredFrom(OfCampaign(c), day))
    && row.failed == CountWhere(t.recipients, FailedFrom(OfCampaign(c), day))
    && row.responded == CountWhere(t.recipients, RespondedFrom(OfCampaign(c), day))
  }

  predicate CampaignFits(t: Tables, day: int, c: nat, credit: int, row: CampaignRow) {
    && CampaignCountsFit(t, day, c, row)
    && IsRatio(row.responseRate, row.responded, row.delivered) && row.conversionRate == row.responseRate
    && Rounds(row.revenue, credit)
    && Rounds(row.messageCost, SumOver(t.recipients, CostFrom(OfCampaign(c), t.messages, day)))
    && Rounds(row.aiSpend, SumOver(t.recipients, SpendFrom(OfCampaign(c), t.messages, t.events, day)))
    && row.metaCostAed == 1800 * row.delivered
    && row.totalCost == row.aiSpend + row.messageCost + 490 * row.delivered
    && IsReturn(row.roi, row.revenue, row.totalCost)
  }

  lemma ReturnIsRoi(revenue: int, cost: int)
    ensures IsReturn(Roi(revenue, cost), revenue, cost)
  {
    if cost > 0 { Money.HalfUpNearest(revenue * 1000000, cost); }
  }

  lemma CampaignCounts(t: Tables, day: int, c: nat, revenue: int)
    ensures CampaignCountsFit(t, day, c, CampaignRowOf(t, day, c, revenue))
  {
    GroupCountIsCardinality(t.recipients, CampaignOf(), c, Reached(day), SentFrom(OfCampaign(c), day));
    GroupCountIsCardinality(t.recipients, CampaignOf(), c, ArrivedOn(day), DeliveredFrom(OfCampaign(c), day));
    GroupCountIsCardinality(t.recipients, CampaignOf(), c, UndeliveredOn(day), FailedFrom(OfCampaign(c), day));
    GroupCountIsCardinality(t.recipients, CampaignOf(), c, AnsweredOn(day), RespondedFrom(OfCampaign(c), day));
  }

  /** A campaign's row, column by column, for revenue rounded from a credit. */
  lemma CampaignExactly(t: Tables, day: int, c: nat, credit: int)
    ensures CampaignFits(t, day, c, credit, CampaignRowOf(t, day, c, Money.HalfUp(credit, 100)))
  {
    var row := CampaignRowOf(t, day, c, Money.HalfUp(credit, 100));
    CampaignCounts(t, day, c, row.revenue);
    CostIsJoined(t.recipients, t.messages, day, SendCampaign(), c, OfCampaign(c));
    SpendIsJoined(t.recipients, t.messages, t.events, day, SpendCampaign(), c, OfCampaign(c));
    StoredRounds(CampaignMessageCost(t, day)(c));
    StoredRounds(CampaignSpend(t, day)(c));
    Money.HalfUpNearest(credit, 100);
    RateIsRatio(row.responded, row.delivered);
    ReturnIsRoi(row.revenue, row.totalCost);
  }

  /** There is a row for a campaign exactly when one of its recipients was sent to that day. */
  lemma CampaignsExactly(t: Tables, day: int, c: nat)
    ensures c in ActiveCampaigns(t, day) <==>
            exists i :: 0 <= i < |t.recipients| && t.recipients[i].campaign == c && MaybeOn(t.recipients[i].sentAt, day)
  {
    if c in ActiveCampaigns(t, day) {
      var r :| r in t.recipients && IsOn(r.sentAt, day) && r.campaign == c;
      var i :| 0 <= i < |t.recipients| && t.recipients[i] == r;
      assert MaybeOn(t.recipients[i].sentAt, day);
    }
    if i :| 0 <= i < |t.recipients| && t.recipients[i].campaign == c && MaybeOn(t.recipients[i].sentAt, day) {
      assert t.recipients[i] in t.recipients;
    }
  }

  /** The campaign has this template; a campaign without one, or with a deleted one, has none. */
  predicate HasTemplate(t: Tables, c: nat, template: nat) {
    c in t.templateOf && t.templateOf[c] == template && template in t.templateName
  }

  function OfTemplate(t: Tables, template: nat): Recipient -> bool { (r: Recipient) => HasTemplate(t, r.campaign, template) }

  predicate TemplateCountsFit(t: Tables, day: int, template: nat, row: TemplateRow) {
    && row.sent == CountWhere(t.recipients, SentFrom(OfTemplate(t, template), day))
    && row.delivered == CountWhere(t.recipients, DeliveredFrom(OfTemplate(t, template), day))
    && row.responded == CountWhere(t.recipients, RespondedFrom(OfTemplate(t, template), day))
  }

  predicate TemplateFits(t: Tables, day: int, template: nat, row: TemplateRow)
    requires template in t.templateName
  {
    && row.name == t.templateName[template]
    && row.campaignsUsed == |set r | r in t.recipients && MaybeOn(r.sentAt, day) && HasTemplate(t, r.campaign, template) :: r.campaign|
    && TemplateCountsFit(t, day, template, row)
    && IsRatio(row.responseRate, row.responded, row.delivered)
    && Rounds(row.messageCost, SumOver(t.recipients, CostFrom(OfTemplate(t, template), t.messages, day)))
    && Rounds(row.aiSpend, SumOver(t.recipients, SpendFrom(OfTemplate(t, template), t.messages, t.events, day)))
    && row.metaCostAed == 1800 * row.delivered
    && row.totalCost == row.aiSpend + row.messageCost + 490 * row.delivered
  }

  lemma TemplateCounts(t: Tables, day: int, template: nat)
    requires template in t.templateName
    ensures TemplateCountsFit(t, day, template, TemplateRowOf(t, day, template))
  {
    var key, k, mine := RecipientTemplate(t), Some(template), OfTemplate(t, template);
    GroupCountIsCardinality(t.recipients, key, k, Reached(day), SentFrom(mine, day));
    GroupCountIsCardinality(t.recipients, key, k, ArrivedOn(day), DeliveredFrom(mine, day));
    GroupCountIsCardinality(t.recipients, key, k, AnsweredOn(day), RespondedFrom(mine, day));
  }

  /** A template's row, column by column. */
  lemma TemplateExactly(t: Tables, day: int, template: nat)
    requires template in t.templateName
    ensures TemplateFits(t, day, template, TemplateRowOf(t, day, template))
  {
    var row := TemplateRowOf(t, day, template);
    TemplateCounts(t, day, template);
    CostIsJoined(t.recipients, t.messages, day, SendTemplate(t), Some(template), OfTemplate(t, template));
    SpendIsJoined(t.recipients, t.messages, t.events, day, SpendTemplate(t), Some(template), OfTemplate(t, template));
    StoredRounds(TemplateMessageCost(t, day, template));
    StoredRounds(TemplateSpend(t, day, template));
    RateIsRatio(row.responded, row.delivered);
    CampaignsOfTemplate(t, day, template);
  }

  lemma CampaignsOfTemplate(t: Tables, day: int, template: nat)
    ensures CampaignsUsing(t, day, template) ==
            set r | r in t.recipients && MaybeOn(r.sentAt, day) && HasTemplate(t, r.campaign, template) :: r.campaign
  {
    forall r | r in t.recipients && MaybeOn(r.sentAt, day) && HasTemplate(t, r.campaign, template)
      ensures r.campaign in CampaignsUsing(t, day, template)
    {
      assert r.campaign in ActiveCampaigns(t, day);
    }
  }

  /** There is a row for a template exactly when one of its campaigns has one. */
  lemma TemplatesExactly(t: Tables, day: int, template: nat)
    ensures template in ActiveTemplates(t, day) <==>
            exists i :: 0 <= i < |t.recipients| && MaybeOn(t.recipients[i].sentAt, day)
                        && HasTemplate(t, t.recipients[i].campaign, template)
  {
    if template in ActiveTemplates(t, day) {
      var c :| c in ActiveCampaigns(t, day) && TemplateOf(t, c) == Some(template);
      CampaignsExactly(t, day, c);
    }
    if i :| 0 <= i < |t.recipients| && MaybeOn(t.recipients[i].sentAt, day) && HasTemplate(t, t.recipients[i].campaign, template) {
      assert t.recipients[i] in t.recipients;
      assert t.recipients[i].campaign in ActiveCampaigns(t, day);
    }
  }
}
