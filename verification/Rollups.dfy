/** The analytics rollups: what one day's rows are, computed from the source tables. */
module Rollups {
  import opened Grouping
  import Money
  import opened Wrappers

  // Timestamps are microseconds since the epoch, read as UTC.
  const DAY: int := 86400000000
  const HOUR: int := 3600000000

  const ATTRIBUTION_WINDOW_DAYS: nat := 30

  // Rollup columns are in units of 10^-4, their revenue column in cents. Source costs are in units of 10^-6 and a
  // contact's revenue in units of 10^-4, as the deployed columns hold them.
  const COST_PARTS: int := 100
  const REVENUE_PARTS: int := 100
  const META_AED: int := 1800
  const META_USD: int := 490
  const ONE: int := 10000
  const ROI_CAP: int := 9999999999

  // ------------------------------------------------------------ source tables

  datatype Direction = Inbound | Outbound

  datatype Delivery = Pending | Draft | Queued | Sent | Delivered | Read | Failed

  datatype Message = Message(
    id: nat, conversation: nat, direction: Direction, delivery: Delivery, createdAt: int, cost: Option<int>)

  datatype AiEvent = AiEvent(conversation: nat, createdAt: int, cost: Option<int>, errored: bool)

  datatype Progress = Waiting | Dispatched | Arrived | Undelivered

  datatype Recipient = Recipient(
    campaign: nat, contact: nat, message: Option<nat>, status: Progress,
    sentAt: Option<int>, deliveredAt: Option<int>, failedAt: Option<int>, responded: bool)

  datatype Contact = Contact(id: nat, revenue: int)

  datatype Tables = Tables(
    messages: seq<Message>, events: seq<AiEvent>, recipients: seq<Recipient>, contacts: seq<Contact>,
    templateOf: map<nat, nat>, templateName: map<nat, string>)

  function DayOf(time: int): int { time / DAY }

  function HourOf(time: int): int { (time % DAY) / HOUR }

  predicate OnDay(time: int, day: int) { day * DAY <= time < (day + 1) * DAY }

  predicate IsOn(time: Option<int>, day: int) { time.Some? && DayOf(time.value) == day }

  /** The two ways the queries pick a day's rows, by range and by date cast, agree. */
  lemma RangeIsDateCast(time: int, day: int)
    ensures OnDay(time, day) <==> DayOf(time) == day
  {
  }

  // ------------------------------------------------------------ filters and keys

  function OrZero(amount: Option<int>): int { if amount.Some? then amount.value else 0 }

  function SentOn(day: int): Message -> bool {
    (m: Message) => OnDay(m.createdAt, day) && m.direction.Outbound? && m.delivery !in {Draft, Pending, Failed}
  }

  function DeliveredOn(day: int): Message -> bool {
    (m: Message) => OnDay(m.createdAt, day) && m.direction.Outbound? && m.delivery in {Delivered, Read}
  }

  function FailedOn(day: int): Message -> bool {
    (m: Message) => OnDay(m.createdAt, day) && m.direction.Outbound? && m.delivery == Failed
  }

  function ReceivedOn(day: int): Message -> bool {
    (m: Message) => OnDay(m.createdAt, day) && m.direction.Inbound?
  }

  /** The hourly table counts a failed attempt as sent. */
  function AttemptedOn(day: int): Message -> bool {
    (m: Message) => OnDay(m.createdAt, day) && m.direction.Outbound? && m.delivery !in {Draft, Pending}
  }

  function MessageCost(): Message -> int { (m: Message) => OrZero(m.cost) }

  function MessageHour(): Message -> int { (m: Message) => HourOf(m.createdAt) }

  function EventOn(day: int): AiEvent -> bool { (e: AiEvent) => OnDay(e.createdAt, day) }

  function ErrorOn(day: int): AiEvent -> bool { (e: AiEvent) => OnDay(e.createdAt, day) && e.errored }

  function EventCost(): AiEvent -> int { (e: AiEvent) => OrZero(e.cost) }

  function Reached(day: int): Recipient -> bool {
    (r: Recipient) => IsOn(r.sentAt, day) && r.status in {Dispatched, Arrived, Undelivered}
  }

  function ArrivedOn(day: int): Recipient -> bool {
    (r: Recipient) => IsOn(r.sentAt, day) && IsOn(r.deliveredAt, day)
  }

  function UndeliveredOn(day: int): Recipient -> bool {
    (r: Recipient) => IsOn(r.sentAt, day) && IsOn(r.failedAt, day)
  }

  function AnsweredOn(day: int): Recipient -> bool { (r: Recipient) => IsOn(r.sentAt, day) && r.responded }

  function CampaignOf(): Recipient -> nat { (r: Recipient) => r.campaign }

  /** The inner joins to campaigns and templates: None when either row is missing. */
  function TemplateOf(t: Tables, campaign: nat): Option<nat> {
    if campaign in t.templateOf && t.templateOf[campaign] in t.templateName then Some(t.templateOf[campaign]) else None
  }

  function RecipientTemplate(t: Tables): Recipient -> Option<nat> { (r: Recipient) => TemplateOf(t, r.campaign) }

  // ------------------------------------------------------------ joins

  /** A recipient with its message. */
  datatype Send = Send(recipient: Recipient, message: Message)

  /** A recipient and message with an AI event of the message's conversation. */
  datatype Spend = Spend(recipient: Recipient, message: Message, event: AiEvent)

  function SendsOf(r: Recipient, messages: seq<Message>): seq<Send> {
    if messages == [] then []
    else (if r.message == Some(messages[0].id) then [Send(r, messages[0])] else []) + SendsOf(r, messages[1..])
  }

  function Sends(recipients: seq<Recipient>, messages: seq<Message>): seq<Send> {
    if recipients == [] then [] else SendsOf(recipients[0], messages) + Sends(recipients[1..], messages)
  }

  function SpendsOf(s: Send, events: seq<AiEvent>): seq<Spend> {
    if events == [] then []
    else
      var head := if events[0].conversation == s.message.conversation then [Spend(s.recipient, s.message, events[0])] else [];
      head + SpendsOf(s, events[1..])
  }

  function Spends(sends: seq<Send>, events: seq<AiEvent>): seq<Spend> {
    if sends == [] then [] else SpendsOf(sends[0], events) + Spends(sends[1..], events)
  }

  /** A join yields only matching pairs of rows of the joined tables. */
  lemma {:induction false} SendsOfMatch(r: Recipient, messages: seq<Message>, i: nat)
    requires i < |SendsOf(r, messages)|
    ensures var s := SendsOf(r, messages)[i];
            s.recipient == r && r.message == Some(s.message.id) && s.message in messages
  {
    if messages != [] {
      var n := if r.message == Some(messages[0].id) then 1 else 0;
      if i >= n { SendsOfMatch(r, messages[1..], i - n); }
    }
  }

  lemma {:induction false} SendsMatch(recipients: seq<Recipient>, messages: seq<Message>, i: nat)
    requires i < |Sends(recipients, messages)|
    ensures var s := Sends(recipients, messages)[i];
            s.recipient in recipients && s.recipient.message == Some(s.message.id) && s.message in messages
  {
    if recipients != [] {
      var n := |SendsOf(recipients[0], messages)|;
      if i < n { SendsOfMatch(recipients[0], messages, i); } else { SendsMatch(recipients[1..], messages, i - n); }
    }
  }

  lemma {:induction false} SpendsOfMatch(s: Send, events: seq<AiEvent>, i: nat)
    requires i < |SpendsOf(s, events)|
    ensures var x := SpendsOf(s, events)[i];
            && Send(x.recipient, x.message) == s && x.event in events && x.event.conversation == x.message.conversation
  {
    if events != [] {
      var n := if events[0].conversation == s.message.conversation then 1 else 0;
      if i >= n { SpendsOfMatch(s, events[1..], i - n); }
    }
  }

  lemma {:induction false} SpendsMatch(sends: seq<Send>, events: seq<AiEvent>, i: nat)
    requires i < |Spends(sends, events)|
    ensures var x := Spends(sends, events)[i];
            && Send(x.recipient, x.message) in sends && x.event in events && x.event.conversation == x.message.conversation
  {
    if sends != [] {
      var n := |SpendsOf(sends[0], events)|;
      if i < n { SpendsOfMatch(sends[0], events, i); } else { SpendsMatch(sends[1..], events, i - n); }
    }
  }

  function Occurrences<T(==)>(rows: seq<T>, row: T): nat {
    if rows == [] then 0 else (if rows[0] == row then 1 else 0) + Occurrences(rows[1..], row)
  }

  lemma {:induction false} OccurrencesAppend<T>(a: seq<T>, b: seq<T>, row: T)
    ensures Occurrences(a + b, row) == Occurrences(a, row) + Occurrences(b, row)
  {
    if a == [] {
      assert a + b == b;
    } else {
      assert (a + b)[0] == a[0] && (a + b)[1..] == a[1..] + b;
      OccurrencesAppend(a[1..], b, row);
    }
  }

  lemma {:induction false} SendsOfExactly(r: Recipient, messages: seq<Message>, s: Send)
    ensures Occurrences(SendsOf(r, messages), s) ==
            if s.recipient == r && r.message == Some(s.message.id) then Occurrences(messages, s.message) else 0
  {
    if messages != [] {
      SendsOfExactly(r, messages[1..], s);
      var head := if r.message == Some(messages[0].id) then [Send(r, messages[0])] else [];
      OccurrencesAppend(head, SendsOf(r, messages[1..]), s);
    }
  }

  /** The join holds every pair of rows that match, exactly once for each way to pick the two, and nothing else. */
  lemma {:induction false} SendsExactly(recipients: seq<Recipient>, messages: seq<Message>, s: Send)
    ensures Occurrences(Sends(recipients, messages), s) ==
            if s.recipient.message == Some(s.message.id)
            then Occurrences(recipients, s.recipient) * Occurrences(messages, s.message) else 0
  {
    if recipients != [] {
      var rest := recipients[1..];
      SendsExactly(rest, messages, s);
      SendsOfExactly(recipients[0], messages, s);
      OccurrencesAppend(SendsOf(recipients[0], messages), Sends(rest, messages), s);
      OneMoreTimes(Occurrences(rest, s.recipient), Occurrences(messages, s.message));
    }
  }

  lemma OneMoreTimes(n: nat, k: nat)
    ensures (1 + n) * k == k + n * k
  {
  }

  lemma {:induction false} SpendsOfExactly(send: Send, events: seq<AiEvent>, x: Spend)
    ensures Occurrences(SpendsOf(send, events), x) ==
            if Send(x.recipient, x.message) == send && x.event.conversation == x.message.conversation
            then Occurrences(events, x.event) else 0
  {
    if events != [] {
      SpendsOfExactly(send, events[1..], x);
      var head := if events[0].conversation == send.message.conversation
                  then [Spend(send.recipient, send.message, events[0])] else [];
      OccurrencesAppend(head, SpendsOf(send, events[1..]), x);
    }
  }

  lemma {:induction false} SpendsExactly(sends: seq<Send>, events: seq<AiEvent>, x: Spend)
    ensures Occurrences(Spends(sends, events), x) ==
            if x.event.conversation == x.message.conversation
            then Occurrences(sends, Send(x.recipient, x.message)) * Occurrences(events, x.event) else 0
  {
    if sends != [] {
      var rest := sends[1..];
      SpendsExactly(rest, events, x);
      SpendsOfExactly(sends[0], events, x);
      OccurrencesAppend(SpendsOf(sends[0], events), Spends(rest, events), x);
      OneMoreTimes(Occurrences(rest, Send(x.recipient, x.message)), Occurrences(events, x.event));
    }
  }

  function Billable(day: int): Send -> bool {
    (s: Send) => IsOn(s.recipient.sentAt, day) && s.message.delivery in {Delivered, Read, Sent, Failed}
  }

  function SendCost(): Send -> int { (s: Send) => OrZero(s.message.cost) }
  function SendCampaign(): Send -> nat { (s: Send) => s.recipient.campaign }
  function SendTemplate(t: Tables): Send -> Option<nat> { (s: Send) => TemplateOf(t, s.recipient.campaign) }

  function SpentOn(day: int): Spend -> bool {
    (s: Spend) => IsOn(s.recipient.sentAt, day) && OnDay(s.event.createdAt, day)
  }

  function SpendCost(): Spend -> int { (s: Spend) => OrZero(s.event.cost) }
  function SpendCampaign(): Spend -> nat { (s: Spend) => s.recipient.campaign }
  function SpendTemplate(t: Tables): Spend -> Option<nat> { (s: Spend) => TemplateOf(t, s.recipient.campaign) }

  function AllSends(t: Tables): seq<Send> { Sends(t.recipients, t.messages) }
  function AllSpends(t: Tables): seq<Spend> { Spends(AllSends(t), t.events) }

  // ------------------------------------------------------------ costs

  /** The cast of a grouped cost sum to four places. */
  function StoredCost(sum: int): int { Money.HalfUp(sum, COST_PARTS) }

  function CampaignMessageCost(t: Tables, day: int): nat -> int {
    (c: nat) => GroupSum(AllSends(t), SendCampaign(), c, Billable(day), SendCost())
  }

  function CampaignSpend(t: Tables, day: int): nat -> int {
    (c: nat) => GroupSum(AllSpends(t), SpendCampaign(), c, SpentOn(day), SpendCost())
  }

  function TemplateMessageCost(t: Tables, day: int, template: nat): int {
    GroupSum(AllSends(t), SendTemplate(t), Some(template), Billable(day), SendCost())
  }

  function TemplateSpend(t: Tables, day: int, template: nat): int {
    GroupSum(AllSpends(t), SpendTemplate(t), Some(template), SpentOn(day), SpendCost())
  }

  // ------------------------------------------------------------ rates

  /** LEAST(1.0, n / d) to four places, 0 for an empty denominator. */
  function Rate(n: int, d: nat): int {
    if d == 0 then 0 else if n >= d then ONE else Money.HalfUp(n * ONE, d)
  }

  /** Revenue over cost to four places, capped at the column's ceiling; NULL when nothing was spent. */
  function Roi(revenue: int, cost: int): Option<int> {
    if cost == 0 then None
    else
      var n, m := (if cost > 0 then revenue else -revenue) * 1000000, if cost > 0 then cost else -cost;
      Some(if n >= ROI_CAP * m then ROI_CAP else Money.HalfUp(n, m))
  }

  // ------------------------------------------------------------ rows

  datatype GlobalRow = GlobalRow(
    aiSpend: int, aiCalls: nat, aiErrors: nat, messageCost: int, metaCostAed: int,
    sent: nat, delivered: nat, failed: nat, received: nat, responseRate: int, totalCost: int)

  datatype HourlyRow = HourlyRow(sent: nat, received: nat, responseRate: int)

  datatype CampaignRow = CampaignRow(
    sent: nat, delivered: nat, failed: nat, responded: nat, responseRate: int, conversionRate: int,
    revenue: int, aiSpend: int, messageCost: int, metaCostAed: int, totalCost: int, roi: Option<int>)

  datatype TemplateRow = TemplateRow(
    name: string, campaignsUsed: nat, sent: nat, delivered: nat, responded: nat, responseRate: int,
    messageCost: int, metaCostAed: int, aiSpend: int, totalCost: int)

  function GlobalOf(t: Tables, day: int): GlobalRow {
    var aiSpend := StoredCost(SumIf(t.events, EventOn(day), EventCost()));
    var messageCost := StoredCost(SumIf(t.messages, DeliveredOn(day), MessageCost()));
    var sent, delivered := CountIf(t.messages, SentOn(day)), CountIf(t.messages, DeliveredOn(day));
    var received := CountIf(t.messages, ReceivedOn(day));
    GlobalRow(
      aiSpend, CountIf(t.events, EventOn(day)), CountIf(t.events, ErrorOn(day)),
      messageCost, delivered * META_AED,
      sent, delivered, CountIf(t.messages, FailedOn(day)), received,
      Rate(received, sent), aiSpend + messageCost + delivered * META_USD)
  }

  function HourlyOf(t: Tables, day: int, hour: int): HourlyRow {
    var sent := GroupCount(t.messages, MessageHour(), hour, AttemptedOn(day));
    var received := GroupCount(t.messages, MessageHour(), hour, ReceivedOn(day));
    HourlyRow(sent, received, Rate(received, sent))
  }

  /** The hours with any message on the day. */
  function ActiveHours(t: Tables, day: int): set<int> {
    set m | m in t.messages && OnDay(m.createdAt, day) :: HourOf(m.createdAt)
  }

  /** The campaigns of the recip query. */
  function ActiveCampaigns(t: Tables, day: int): set<nat> {
    set r | r in t.recipients && IsOn(r.sentAt, day) :: r.campaign
  }

  /** The day's campaigns using a template, and the templates so used. */
  function CampaignsUsing(t: Tables, day: int, template: nat): set<nat> {
    set c | c in ActiveCampaigns(t, day) && TemplateOf(t, c) == Some(template)
  }

  function ActiveTemplates(t: Tables, day: int): set<nat> {
    set c | c in ActiveCampaigns(t, day) && TemplateOf(t, c).Some? :: TemplateOf(t, c).value
  }

  function TemplateRowOf(t: Tables, day: int, template: nat): TemplateRow
    requires template in t.templateName
  {
    var key := RecipientTemplate(t);
    var delivered := GroupCount(t.recipients, key, Some(template), ArrivedOn(day));
    var responded := GroupCount(t.recipients, key, Some(template), AnsweredOn(day));
    var messageCost := StoredCost(TemplateMessageCost(t, day, template));
    var aiSpend := StoredCost(TemplateSpend(t, day, template));
    TemplateRow(
      t.templateName[template], |CampaignsUsing(t, day, template)|,
      GroupCount(t.recipients, key, Some(template), Reached(day)), delivered, responded, Rate(responded, delivered),
      messageCost, delivered * META_AED, aiSpend, aiSpend + messageCost + delivered * META_USD)
  }

  /** A campaign's row, given the value of its revenue column. */
  function CampaignRowOf(t: Tables, day: int, campaign: nat, revenue: int): CampaignRow {
    var delivered := GroupCount(t.recipients, CampaignOf(), campaign, ArrivedOn(day));
    var responded := GroupCount(t.recipients, CampaignOf(), campaign, AnsweredOn(day));
    var messageCost := StoredCost(CampaignMessageCost(t, day)(campaign));
    var aiSpend := StoredCost(CampaignSpend(t, day)(campaign));
    var cost := aiSpend + messageCost + delivered * META_USD;
    CampaignRow(
      GroupCount(t.recipients, CampaignOf(), campaign, Reached(day)), delivered,
      GroupCount(t.recipients, CampaignOf(), campaign, UndeliveredOn(day)), responded,
      Rate(responded, delivered), Rate(responded, delivered),
      revenue, aiSpend, messageCost, delivered * META_AED, cost, Roi(revenue, cost))
  }

  // ------------------------------------------------------------ reconciliation

  /** Hourly sent counts add up to the day's sent and failed messages together; hourly received to the day's. */
  lemma HoursReconcile(t: Tables, day: int, hours: seq<int>)
    requires Enumerates(hours, ActiveHours(t, day))
    ensures SumOver(hours, h => HourlyOf(t, day, h).sent) == GlobalOf(t, day).sent + GlobalOf(t, day).failed
    ensures SumOver(hours, h => HourlyOf(t, day, h).received) == GlobalOf(t, day).received
  {
    forall i | 0 <= i < |t.messages| && OnDay(t.messages[i].createdAt, day)
      ensures MessageHour()(t.messages[i]) in hours
    {
      assert t.messages[i] in t.messages;
    }
    SumOverGroups(t.messages, MessageHour(), hours, AttemptedOn(day), One(), h => HourlyOf(t, day, h).sent);
    SumOverGroups(t.messages, MessageHour(), hours, ReceivedOn(day), One(), h => HourlyOf(t, day, h).received);
    GroupsCoverAll(t.messages, MessageHour(), hours, AttemptedOn(day), One());
    GroupsCoverAll(t.messages, MessageHour(), hours, ReceivedOn(day), One());
    SumSplit(t.messages, AttemptedOn(day), SentOn(day), FailedOn(day), One());
  }

  /** Every hour with a row is a clock hour, so at most 24 rows stand for a day. */
  lemma HoursAreClockHours(t: Tables, day: int, hour: int)
    requires hour in ActiveHours(t, day)
    ensures 0 <= hour < 24
  {
  }

  lemma DeliveredWithinSent(t: Tables, day: int)
    ensures GlobalOf(t, day).delivered <= GlobalOf(t, day).sent
  {
    CountMonotone(t.messages, DeliveredOn(day), SentOn(day));
  }

  /** One column of the day's campaign rows, each credited with the given revenue. */
  function Column(t: Tables, day: int, revenue: nat -> int, pick: CampaignRow -> int): nat -> int {
    (c: nat) => pick(CampaignRowOf(t, day, c, revenue(c)))
  }

  function SentColumn(): CampaignRow -> int { (row: CampaignRow) => row.sent }
  function DeliveredColumn(): CampaignRow -> int { (row: CampaignRow) => row.delivered }
  function RespondedColumn(): CampaignRow -> int { (row: CampaignRow) => row.responded }
  function MessageCostColumn(): CampaignRow -> int { (row: CampaignRow) => row.messageCost }
  function AiSpendColumn(): CampaignRow -> int { (row: CampaignRow) => row.aiSpend }
  function MetaCostColumn(): CampaignRow -> int { (row: CampaignRow) => row.metaCostAed }
  function TotalCostColumn(): CampaignRow -> int { (row: CampaignRow) => row.totalCost }
  function RevenueColumn(): CampaignRow -> int { (row: CampaignRow) => row.revenue }

  /** A template's counts are the sums of those of the campaigns using it that day, and it counts those campaigns. */
  lemma TemplateCountsReconcile(t: Tables, day: int, template: nat, campaigns: seq<nat>, revenue: nat -> int)
    requires template in t.templateName
    requires Enumerates(campaigns, CampaignsUsing(t, day, template))
    ensures var row := TemplateRowOf(t, day, template);
            && SumOver(campaigns, Column(t, day, revenue, SentColumn())) == row.sent
            && SumOver(campaigns, Column(t, day, revenue, DeliveredColumn())) == row.delivered
            && SumOver(campaigns, Column(t, day, revenue, RespondedColumn())) == row.responded
            && |campaigns| == row.campaignsUsed
  {
    RecipientsCoarsen(t, day, template, campaigns, Reached(day));
    RecipientsCoarsen(t, day, template, campaigns, ArrivedOn(day));
    RecipientsCoarsen(t, day, template, campaigns, AnsweredOn(day));
    SumOverGroups(t.recipients, CampaignOf(), campaigns, Reached(day), One(), Column(t, day, revenue, SentColumn()));
    SumOverGroups(t.recipients, CampaignOf(), campaigns, ArrivedOn(day), One(), Column(t, day, revenue, DeliveredColumn()));
    SumOverGroups(t.recipients, CampaignOf(), campaigns, AnsweredOn(day), One(), Column(t, day, revenue, RespondedColumn()));
    ListingLength(campaigns, CampaignsUsing(t, day, template));
  }

  function Zero(): nat -> int { (c: nat) => 0 }

  lemma {:induction false} SumLinear(ks: seq<nat>, total: nat -> int, a: nat -> int, b: nat -> int, n: nat -> int, rate: int)
    requires forall k :: k in ks ==> total(k) == a(k) + b(k) + n(k) * rate
    ensures SumOver(ks, total) == SumOver(ks, a) + SumOver(ks, b) + SumOver(ks, n) * rate
  {
    if ks != [] {
      assert ks[0] in ks;
      assert forall k :: k in ks[1..] ==> k in ks;
      SumLinear(ks[1..], total, a, b, n, rate);
      assert (n(ks[0]) + SumOver(ks[1..], n)) * rate == n(ks[0]) * rate + SumOver(ks[1..], n) * rate;
    }
  }

  lemma {:induction false} SumZero(ks: seq<nat>)
    ensures SumOver(ks, Zero()) == 0
  {
    if ks != [] { SumZero(ks[1..]); }
  }

  lemma RecipientsCoarsen(t: Tables, day: int, template: nat, campaigns: seq<nat>, keep: Recipient -> bool)
    requires Enumerates(campaigns, CampaignsUsing(t, day, template))
    requires forall r :: keep(r) ==> IsOn(r.sentAt, day)
    ensures GroupSum(t.recipients, RecipientTemplate(t), Some(template), keep, One()) ==
            GroupSums(t.recipients, CampaignOf(), campaigns, keep, One())
  {
    forall i | 0 <= i < |t.recipients| && keep(t.recipients[i])
      ensures RecipientTemplate(t)(t.recipients[i]) == Some(template) <==> CampaignOf()(t.recipients[i]) in campaigns
    {
      UsesTemplate(t, day, template, t.recipients[i]);
    }
    Coarsen(t.recipients, CampaignOf(), campaigns, RecipientTemplate(t), Some(template), keep, One());
  }

  lemma SendsCoarsen(t: Tables, day: int, template: nat, campaigns: seq<nat>)
    requires Enumerates(campaigns, CampaignsUsing(t, day, template))
    ensures TemplateMessageCost(t, day, template) == GroupSums(AllSends(t), SendCampaign(), campaigns, Billable(day), SendCost())
  {
    var rows := AllSends(t);
    forall i | 0 <= i < |rows| && Billable(day)(rows[i])
      ensures SendTemplate(t)(rows[i]) == Some(template) <==> SendCampaign()(rows[i]) in campaigns
    {
      SendsMatch(t.recipients, t.messages, i);
      UsesTemplate(t, day, template, rows[i].recipient);
    }
    Coarsen(rows, SendCampaign(), campaigns, SendTemplate(t), Some(template), Billable(day), SendCost());
  }

  lemma SpendsCoarsen(t: Tables, day: int, template: nat, campaigns: seq<nat>)
    requires Enumerates(campaigns, CampaignsUsing(t, day, template))
    ensures TemplateSpend(t, day, template) == GroupSums(AllSpends(t), SpendCampaign(), campaigns, SpentOn(day), SpendCost())
  {
    var rows := AllSpends(t);
    forall i | 0 <= i < |rows| && SpentOn(day)(rows[i])
      ensures SpendTemplate(t)(rows[i]) == Some(template) <==> SpendCampaign()(rows[i]) in campaigns
    {
      SpendsMatch(AllSends(t), t.events, i);
      var j :| 0 <= j < |AllSends(t)| && AllSends(t)[j] == Send(rows[i].recipient, rows[i].message);
      SendsMatch(t.recipients, t.messages, j);
      UsesTemplate(t, day, template, rows[i].recipient);
    }
    Coarsen(rows, SpendCampaign(), campaigns, SpendTemplate(t), Some(template), SpentOn(day), SpendCost());
  }

  lemma UsesTemplate(t: Tables, day: int, template: nat, r: Recipient)
    requires r in t.recipients && IsOn(r.sentAt, day)
    ensures TemplateOf(t, r.campaign) == Some(template) <==> r.campaign in CampaignsUsing(t, day, template)
  {
    assert r.campaign in ActiveCampaigns(t, day);
  }

  lemma {:induction false} ListingLength<K>(ks: seq<K>, s: set<K>)
    requires Enumerates(ks, s)
    ensures |ks| == |s|
  {
    if ks == [] {
      assert s == {};
    } else {
      assert ks[0] in ks;
      forall k | k in s - {ks[0]} ensures k in ks[1..] { assert k in ks; }
      forall k | k in ks[1..] ensures k in s - {ks[0]} { assert k in ks; }
      ListingLength(ks[1..], s - {ks[0]});
    }
  }

  // ------------------------------------------------------------ ranges

  predicate NonNegative(t: Tables) {
    && (forall i :: 0 <= i < |t.messages| ==> OrZero(t.messages[i].cost) >= 0)
    && (forall i :: 0 <= i < |t.events| ==> OrZero(t.events[i].cost) >= 0)
  }

  /** A rate is in [0, 1], and the nearest four-place value of the ratio unless the ratio exceeds 1. */
  lemma RateIsARatio(n: nat, d: nat)
    ensures 0 <= Rate(n, d) <= ONE
    ensures 0 < n < d ==> Money.NearestAway(Rate(n, d), n * ONE, d)
    ensures d > 0 ==> (n == 0 ==> Rate(n, d) == 0) && (n >= d ==> Rate(n, d) == ONE)
  {
    if d > 0 && n < d {
      var r := Money.HalfUp(n * ONE, d);
      Money.HalfUpNearest(n * ONE, d);
      Between(r, n * ONE, d, ONE);
    }
  }

  /** The database's division rounds the quotient to a finer scale before the column does. That changes no rate as long
      as the finer scale splits a four-place unit into more parts than the denominator. */
  lemma FinerRoundingIsHarmless(n: nat, d: nat, parts: nat)
    requires n < d < parts
    ensures Money.HalfUp(Money.HalfUp(n * ONE * parts, d), parts) == Rate(n, d)
  {
    FinerRounding(n * ONE, d, parts);
  }

  /** Nor any ROI below its cap, as long as the cost has fewer units than that. */
  lemma RoiSurvivesFinerRounding(revenue: nat, cost: nat, parts: nat)
    requires 0 < cost < parts && revenue * 1000000 < ROI_CAP * cost
    ensures Money.HalfUp(Money.HalfUp(revenue * 1000000 * parts, cost), parts) == Roi(revenue, cost).value
  {
    FinerRounding(revenue * 1000000, cost, parts);
  }

  lemma FinerRounding(c: nat, d: nat, parts: nat)
    requires 0 < d < parts
    ensures Money.HalfUp(Money.HalfUp(c * parts, d), parts) == Money.HalfUp(c, d)
  {
    var q, r := Money.HalfUp(c * parts, d), Money.HalfUp(c, d);
    Money.HalfUpNearest(c * parts, d);
    Money.HalfUpNearest(c, d);
    FinerIsNearest(c, d, parts, q, r);
    Money.HalfUpNearest(q, parts);
    Money.NearestUnique(Money.HalfUp(q, parts), r, q, parts);
  }

  lemma FinerIsNearest(n: nat, d: int, parts: int, q: int, r: int)
    requires 0 < d < parts && Money.NearestAway(q, n * parts, d) && Money.NearestAway(r, n, d)
    ensures Money.NearestAway(r, q, parts)
  {
    Money.MulMono(0, n, parts);
    RoundedNonNegative(q, n * parts, d);
    RoundedNonNegative(r, n, d);
    FinerGap(n, d, parts, q, r);
    HalfStep(r * parts - q, d, parts, 2 * (r * d - n), 2 * (q * d - n * parts));
    NoTieAtZero(r, parts);
  }

  lemma RoundedNonNegative(r: int, c: int, m: int)
    requires m > 0 && c >= 0 && Money.NearestAway(r, c, m)
    ensures r >= 0 && 2 * (r * m - c) >= 1 - m
  {
    if r < 0 { Money.MulMono(r, -1, m); }
  }

  lemma NoTieAtZero(r: int, parts: int)
    requires r >= 0 && parts > 0
    ensures 2 * (r * parts) != parts
  {
    if r >= 1 { Money.MulMono(1, r, parts); }
  }

  lemma FinerGap(n: int, d: int, parts: int, q: int, r: int)
    ensures 2 * (r * parts - q) * d == 2 * (r * d - n) * parts - 2 * (q * d - n * parts)
  {
    assert r * parts * d == r * d * parts;
  }

  lemma HalfStep(x: int, d: int, parts: int, a: int, b: int)
    requires 0 < d < parts && 2 * x * d == a * parts - b && 1 - d <= a <= d && 1 - d <= b <= d
    ensures -parts < 2 * x <= parts
  {
    Money.MulMono(a, d, parts);
    Money.MulMono(1 - d, a, parts);
    assert (1 - d) * parts == parts - d * parts;
    assert (parts + 1) * d == d * parts + d;
    assert (2 * x + parts) * d == 2 * x * d + d * parts;
    if 2 * x > parts {
      Money.MulMono(parts + 1, 2 * x, d);
    } else if 2 * x + parts <= 0 {
      Money.MulMono(2 * x + parts, 0, d);
    }
  }

  lemma Between(r: int, c: int, m: int, cap: int)
    requires m > 0 && Money.NearestAway(r, c, m) && 0 <= c < cap * m && cap >= 0
    ensures 0 <= r <= cap
    ensures c == 0 ==> r == 0
  {
    if r < 0 {
      Money.MulMono(r, -1, m);
    }
    assert (cap + 1) * m == cap * m + m;
    if r > cap {
      Money.MulMono(cap + 1, r, m);
    }
    if c == 0 && r >= 1 {
      Money.MulMono(1, r, m);
    }
  }

  /** With revenue and cost not negative, a stored ROI lies in [0, 999999.9999], so it fits numeric(10,4). */
  lemma RoiFits(revenue: nat, cost: nat)
    ensures Roi(revenue, cost).None? <==> cost == 0
    ensures cost > 0 ==>
              && 0 <= Roi(revenue, cost).value <= ROI_CAP
              && (revenue * 1000000 < ROI_CAP * cost ==> Money.NearestAway(Roi(revenue, cost).value, revenue * 1000000, cost))
  {
    if cost > 0 && revenue * 1000000 < ROI_CAP * cost {
      Money.HalfUpNearest(revenue * 1000000, cost);
      Between(Money.HalfUp(revenue * 1000000, cost), revenue * 1000000, cost, ROI_CAP);
    }
  }

  lemma CostsNonNegative(t: Tables, day: int, campaign: nat)
    requires NonNegative(t)
    ensures CampaignMessageCost(t, day)(campaign) >= 0 && CampaignSpend(t, day)(campaign) >= 0
  {
    forall i | 0 <= i < |AllSends(t)| ensures SendCost()(AllSends(t)[i]) >= 0 {
      SendsMatch(t.recipients, t.messages, i);
    }
    forall i | 0 <= i < |AllSpends(t)| ensures SpendCost()(AllSpends(t)[i]) >= 0 {
      SpendsMatch(AllSends(t), t.events, i);
    }
    SumNonNegative(AllSends(t), SendCampaign(), campaign, Billable(day), SendCost());
    SumNonNegative(AllSpends(t), SpendCampaign(), campaign, SpentOn(day), SpendCost());
  }

  /** Every rate and ROI of a campaign's row is in its column's range; ROI is NULL exactly when nothing was delivered that
      day and message cost and AI cost are each below half a unit of the fourth place, which they may be without being
      zero. */
  lemma CampaignRowInRange(t: Tables, day: int, campaign: nat, revenue: nat)
    requires NonNegative(t)
    ensures var row := CampaignRowOf(t, day, campaign, revenue);
            && 0 <= row.responseRate <= ONE && 0 <= row.conversionRate <= ONE
            && row.messageCost >= 0 && row.aiSpend >= 0 && row.totalCost >= 0
            && (row.roi.None? <==>
                  && row.delivered == 0
                  && 2 * CampaignMessageCost(t, day)(campaign) < COST_PARTS && 2 * CampaignSpend(t, day)(campaign) < COST_PARTS)
            && (row.roi.Some? ==> 0 <= row.roi.value <= ROI_CAP)
  {
    var row := CampaignRowOf(t, day, campaign, revenue);
    CostsNonNegative(t, day, campaign);
    SmallCostsVanish(CampaignMessageCost(t, day)(campaign));
    SmallCostsVanish(CampaignSpend(t, day)(campaign));
    RateIsARatio(row.responded, row.delivered);
    RoiFits(revenue, row.totalCost);
  }

  lemma SmallCostsVanish(sum: nat)
    ensures StoredCost(sum) >= 0 && (StoredCost(sum) == 0 <==> 2 * sum < COST_PARTS)
  {
  }
}
