/** The two-tier cascade, the decision rules, and the single transaction that applies their outcome. */
module DecisionEngine {
  import opened StateMachine
  import opened Wrappers

  // ------------------------------------------------------------ provider and settings

  /** What one provider round trip proposes. */
  datatype Proposal = Proposal(
    reply: string,
    confidence: real,
    tags: seq<string>,
    requiresApproval: bool,
    escalate: bool,
    detectedOptOut: bool,
    contactCard: bool)

  datatype Call = Replied(proposal: Proposal) | Failed(retryable: bool)

  /** A runtime setting, or the exception its read raised. */
  datatype Setting<+T> = Value(v: T) | Unreadable

  datatype Settings = Settings(
    killSwitch: Setting<bool>,
    testNumbers: Setting<seq<string>>,
    tagSuggestions: Setting<bool>,
    responseGeneration: Setting<bool>,
    autoSend: Setting<bool>)

  /** Everything one request reads from outside the conversation row. */
  datatype Inputs = Inputs(
    bulk: Call,
    second: Call,
    settings: Settings,
    hasContact: bool,
    phone: string)

  const AUTO_REPLY: real := 0.85
  const GRAY_ZONE: real := 0.50

  /** The reads share one try block: a later failure keeps the values already read. */
  predicate KillBlocked(settings: Settings, phone: string) {
    && settings.killSwitch.Value? && settings.killSwitch.v
    && !(settings.testNumbers.Value? && phone in settings.testNumbers.v)
  }

  /** When only the list of test numbers cannot be read, exactly a switch that was read as on blocks, and it blocks every
      number, a listed test number included. */
  lemma UnreadableListKeepsSwitch(settings: Settings, phone: string, numbers: seq<string>)
    requires settings.testNumbers.Unreadable?
    ensures KillBlocked(settings, phone) <==> settings.killSwitch == Value(true)
    ensures KillBlocked(settings.(testNumbers := Value(numbers)), phone) <==>
              settings.killSwitch == Value(true) && phone !in numbers
  {
  }

  predicate TagsOn(settings: Settings) {
    settings.tagSuggestions.Value? ==> settings.tagSuggestions.v
  }

  predicate ResponsesOn(settings: Settings) {
    settings.tagSuggestions.Value? && settings.responseGeneration.Value? ==> settings.responseGeneration.v
  }

  predicate AutoSendOn(settings: Settings) {
    settings.autoSend.Value? ==> settings.autoSend.v
  }

  predicate NeedsEscalation(p: Proposal) {
    p.escalate || p.requiresApproval || GRAY_ZONE <= p.confidence <= AUTO_REPLY
  }

  function Cascade(bulk: Call, second: Call): Call {
    match bulk
    case Failed(_) => bulk
    case Replied(p) => if NeedsEscalation(p) then second else bulk
  }

  /** The bulk tier's own answer stands exactly when it is unflagged and outside the gray zone from 0.50 to 0.85; a failed
      first call is the answer, and in every other case the second call is. */
  lemma CascadeExactly(bulk: Call, second: Call)
    ensures bulk.Failed? ==> Cascade(bulk, second) == bulk
    ensures bulk.Replied? ==>
              var p := bulk.proposal;
              Cascade(bulk, second) ==
                if !p.escalate && !p.requiresApproval && (p.confidence < 0.50 || p.confidence > 0.85) then bulk else second
  {
  }

  // Python's str.strip() removes these.
  predicate IsSpace(c: char) {
    var n := c as int;
    || 0x09 <= n <= 0x0D || 0x1C <= n <= 0x20 || n == 0x85 || n == 0xA0 || n == 0x1680
    || 0x2000 <= n <= 0x200A || n == 0x2028 || n == 0x2029 || n == 0x202F || n == 0x205F || n == 0x3000
  }

  predicate Blank(s: string) { forall i :: 0 <= i < |s| ==> IsSpace(s[i]) }

  /** s.strip(). */
  function Strip(s: string): string {
    if s == "" then ""
    else if IsSpace(s[0]) then Strip(s[1..])
    else if IsSpace(s[|s| - 1]) then Strip(s[..|s| - 1])
    else s
  }

  /** Blank is what makes a stripped text falsy; ASCII letters, digits and punctuation are never stripped. */
  lemma {:induction false} BlankIffStripsToNothing(s: string)
    ensures Blank(s) <==> Strip(s) == ""
    ensures (exists i :: 0 <= i < |s| && '!' <= s[i] <= '~') ==> !Blank(s)
    ensures (forall i :: 0 <= i < |s| ==> s[i] in " \t\n\r") ==> Blank(s)
    decreases |s|
  {
    if s != "" {
      if IsSpace(s[0]) {
        BlankIffStripsToNothing(s[1..]);
        assert Blank(s) <==> Blank(s[1..]) by {
          if Blank(s[1..]) {
            forall i | 0 <= i < |s| ensures IsSpace(s[i]) {
              if i > 0 { assert s[i] == s[1..][i - 1]; }
            }
          }
        }
      } else if IsSpace(s[|s| - 1]) {
        BlankIffStripsToNothing(s[..|s| - 1]);
        assert !Blank(s[..|s| - 1]) by { assert s[..|s| - 1][0] == s[0]; }
      }
    }
  }

  // ------------------------------------------------------------ decision rules

  datatype Action = AutoSend | Approval | Escalate | Noop

  datatype Reason =
    | OptOutDetected
    | ResponseGenerationDisabled
    | ResponseEscalate
    | RequiresApproval
    | AutoSendSuppressed
    | FaqAutoSend
    | LowConfidence
    | NoReply

  datatype Status = Pending | Draft | Queued | Sent | Delivered | Read | DeliveryFailed

  datatype Message = Message(content: string, status: Status, contactCard: bool)

  /** What the rules ask the transaction to do. */
  datatype Plan = Plan(
    action: Action,
    reason: Reason,
    optOut: bool,
    target: Option<State>,
    aiOff: bool,
    draft: Option<Message>,
    tags: seq<string>)

  const DEMO_CARD: string := "Sara Ahmed \U{2014} +971 50 000 0000"

  function DraftOf(p: Proposal, status: Status): Message {
    Message(if p.contactCard then DEMO_CARD else p.reply, status, p.contactCard)
  }

  function NonEmpty(tags: seq<string>): (kept: seq<string>)
    ensures forall t :: t in kept <==> t in tags && t != ""
  {
    if tags == [] then []
    else NonEmpty(tags[..|tags| - 1]) + (if tags[|tags| - 1] == "" then [] else [tags[|tags| - 1]])
  }

  /** The filter keeps order and repetitions: it works tag by tag. */
  lemma {:induction false} NonEmptyTagByTag(a: seq<string>, b: seq<string>, tag: string)
    ensures NonEmpty(a + b) == NonEmpty(a) + NonEmpty(b)
    ensures NonEmpty([tag]) == if tag == "" then [] else [tag]
  {
    assert [tag][..0] == [];
    if b == [] {
      assert a + b == a;
    } else {
      NonEmptyTagByTag(a, b[..|b| - 1], tag);
      assert (a + b)[..|a + b| - 1] == a + b[..|b| - 1];
    }
  }

  function SuggestedTags(p: Proposal, hasContact: bool, settings: Settings): seq<string> {
    if TagsOn(settings) && hasContact then NonEmpty(p.tags) else []
  }

  function Decide(p: Proposal, hasContact: bool, settings: Settings): Plan {
    if p.detectedOptOut && hasContact then
      Plan(Escalate, OptOutDetected, true, Some(HumanAssigned), true, None, [])
    else
      var tags := SuggestedTags(p, hasContact, settings);
      if !ResponsesOn(settings) then Plan(Noop, ResponseGenerationDisabled, false, None, false, None, tags)
      else if p.escalate then Plan(Escalate, ResponseEscalate, false, Some(HumanAssigned), true, None, tags)
      else if p.requiresApproval then
        Plan(Approval, RequiresApproval, false, Some(AwaitingApproval), false, Some(DraftOf(p, Draft)), tags)
      else if p.confidence > AUTO_REPLY && !Blank(p.reply) then
        if !AutoSendOn(settings) then
          Plan(Approval, AutoSendSuppressed, false, Some(AwaitingApproval), false, Some(DraftOf(p, Draft)), tags)
        else Plan(AutoSend, FaqAutoSend, false, None, false, Some(DraftOf(p, Queued)), tags)
      else if !Blank(p.reply) then
        Plan(Approval, LowConfidence, false, Some(AwaitingApproval), false, Some(DraftOf(p, Draft)), tags)
      else Plan(Noop, NoReply, false, None, false, None, tags)
  }

  /** The cascade's answer is acted on as the authoritative tier gave it. */
  function PlanOf(inputs: Inputs): Plan
    requires Cascade(inputs.bulk, inputs.second).Replied?
  {
    Decide(Cascade(inputs.bulk, inputs.second).proposal, inputs.hasContact, inputs.settings)
  }

  /** The bulk tier's own proposal is final only outside the gray zone and unflagged;
      otherwise whatever is done follows the second tier alone. */
  lemma FlaggedBulkIsNeverActedOn(inputs: Inputs, other: Proposal)
    requires inputs.bulk.Replied? && inputs.second.Replied?
    requires var p := inputs.bulk.proposal; p.escalate || p.requiresApproval || 0.50 <= p.confidence <= 0.85
    ensures PlanOf(inputs) == Decide(inputs.second.proposal, inputs.hasContact, inputs.settings)
    ensures other.escalate || other.requiresApproval || 0.50 <= other.confidence <= 0.85 ==>
              PlanOf(inputs.(bulk := Replied(other))) == PlanOf(inputs)
  {
  }

  /** A draft is written exactly when the reply is not opted out, switched off or escalated, and is non-blank
      or explicitly flagged for approval; it is queued exactly for auto-send and a draft exactly for approval. */
  lemma DraftExactly(p: Proposal, hasContact: bool, settings: Settings)
    ensures var plan := Decide(p, hasContact, settings);
            && (plan.draft.Some? <==>
                  !(p.detectedOptOut && hasContact) && ResponsesOn(settings) && !p.escalate
                  && (!Blank(p.reply) || p.requiresApproval))
            && (plan.draft.Some? ==>
                  && plan.draft.value.status in {Draft, Queued}
                  && plan.draft.value.content == (if p.contactCard then DEMO_CARD else p.reply))
            && ((plan.draft.Some? && plan.draft.value.status == Queued) <==> plan.action == AutoSend)
            && ((plan.draft.Some? && plan.draft.value.status == Draft) <==> plan.action == Approval)
            && (plan.action == Escalate <==> plan.target == Some(HumanAssigned))
            && (plan.action == Approval <==> plan.target == Some(AwaitingApproval))
            && (plan.aiOff <==> plan.action == Escalate)
  {
  }

  /** A tag is suggested exactly when it was proposed, is not empty, the toggle is on, the contact is known and the
      answer is not an opt-out; tags do not depend on which reply branch is taken. */
  lemma TagsExactly(p: Proposal, hasContact: bool, settings: Settings, tag: string)
    ensures tag in Decide(p, hasContact, settings).tags <==>
              tag in p.tags && tag != "" && TagsOn(settings) && hasContact && !p.detectedOptOut
  {
  }

  // ------------------------------------------------------------ the transaction

  /** The conversation row's columns that matter here. */
  datatype Conv = Conv(state: State, aiEnabled: bool)

  /** One run of the request task: the attempt-th execution of a chain of retries. */
  datatype ExecId = ExecId(chain: nat, attempt: nat)

  datatype Event = Event(exec: ExecId, failed: bool)

  datatype Suggestion = Suggestion(exec: ExecId, tag: string)

  /** Committed rows: the conversation, AI-authored messages, tag suggestions, round-trip events, opt-out flag. */
  datatype Store = Store(
    conv: Conv,
    messages: map<nat, Message>,
    suggestions: seq<Suggestion>,
    events: seq<Event>,
    doNotContact: bool)

  datatype CommitError = Rejected(verdict: Verdict) | ConcurrentModification | ConversationGone

  datatype Moved = Moved(conv: Conv) | Refused(error: CommitError)

  /** _transition: nothing to do if the snapshot already reads the target; otherwise the table is consulted on
      the snapshot, and the row changes only if it still holds the snapshot's state. */
  function Move(conv: Conv, snapshot: State, target: State): Moved {
    if snapshot == target then Moved(conv)
    else if AssertTransition(snapshot, target) != Legal then Refused(Rejected(AssertTransition(snapshot, target)))
    else if conv.state != snapshot then Refused(ConcurrentModification)
    else Moved(conv.(state := target))
  }

  function MoveTo(conv: Conv, snapshot: State, target: Option<State>): Moved {
    match target
    case None => Moved(conv)
    case Some(t) => Move(conv, snapshot, t)
  }

  /** A stale snapshot either fails without effect or takes an arc that is legal from the row's actual state. */
  lemma StaleMoveIsSafe(conv: Conv, snapshot: State, target: State)
    ensures match Move(conv, snapshot, target)
            case Refused(_) => snapshot != target
            case Moved(after) =>
              && after.aiEnabled == conv.aiEnabled
              && ((after == conv && snapshot == target)
                  || (after.state == target && conv.state == snapshot && CanTransition(conv.state, target)))
    ensures Move(conv, snapshot, target).Refused? <==>
              snapshot != target && (!CanTransition(snapshot, target) || conv.state != snapshot)
  {
    LegalIffListed(snapshot, target);
  }

  function Suggestions(exec: ExecId, tags: seq<string>): seq<Suggestion> {
    seq(|tags|, i requires 0 <= i < |tags| => Suggestion(exec, tags[i]))
  }

  /** The tags an execution suggested, in order. */
  function TagsOf(rows: seq<Suggestion>, exec: ExecId): seq<string> {
    if rows == [] then []
    else
      var last := rows[|rows| - 1];
      TagsOf(rows[..|rows| - 1], exec) + (if last.exec == exec then [last.tag] else [])
  }

  /** Reading back an execution's suggestions gives its tags, in order and once each; the others' are unaffected. */
  lemma {:induction false} SuggestionsReadBack(rows: seq<Suggestion>, exec: ExecId, tags: seq<string>, other: ExecId)
    ensures TagsOf(rows + Suggestions(exec, tags), other) ==
            TagsOf(rows, other) + (if other == exec then tags else [])
  {
    if tags == [] {
      assert rows + Suggestions(exec, tags) == rows;
    } else {
      var front, last := tags[..|tags| - 1], tags[|tags| - 1];
      var all := rows + Suggestions(exec, tags);
      assert all[..|all| - 1] == rows + Suggestions(exec, front);
      assert all[|all| - 1] == Suggestion(exec, last);
      SuggestionsReadBack(rows, exec, front, other);
      assert tags == front + [last];
    }
  }

  datatype Transaction = Committed(store: Store, message: Option<nat>) | RolledBack(error: CommitError)

  /** All rows of one decided request; id is the key a new message row gets. */
  function Apply(store: Store, snapshot: State, plan: Plan, exec: ExecId, id: nat): Transaction
  {
    match MoveTo(store.conv, snapshot, plan.target)
    case Refused(e) => RolledBack(e)
    case Moved(conv) =>
      Committed(
        Store(if plan.aiOff then conv.(aiEnabled := false) else conv,
              if plan.draft.Some? then store.messages[id := plan.draft.value] else store.messages,
              store.suggestions + Suggestions(exec, plan.tags),
              store.events + [Event(exec, false)],
              store.doNotContact || plan.optOut),
        if plan.draft.Some? then Some(id) else None)
  }

  /** A decided request. The contact column is a required foreign key that cascades, so a missing contact row means
      that the conversation row is gone as well, and inserting the round trip's event fails: nothing is committed. */
  function Process(store: Store, snapshot: State, inputs: Inputs, exec: ExecId, id: nat): Transaction
    requires Cascade(inputs.bulk, inputs.second).Replied?
  {
    if !inputs.hasContact then RolledBack(ConversationGone) else Apply(store, snapshot, PlanOf(inputs), exec, id)
  }

  /** An auto-send is committed exactly on an answer without any flag, confident and non-blank, with both toggles on;
      after a flagged bulk draft the queued text is the second tier's. */
  lemma AutoSendExactly(store: Store, snapshot: State, inputs: Inputs, exec: ExecId, id: nat)
    requires Cascade(inputs.bulk, inputs.second).Replied?
    ensures var p := Cascade(inputs.bulk, inputs.second).proposal;
            Process(store, snapshot, inputs, exec, id).Committed? && PlanOf(inputs).action == AutoSend <==>
              && inputs.hasContact && !p.detectedOptOut && !p.escalate && !p.requiresApproval
              && p.confidence > 0.85 && !Blank(p.reply)
              && !RepliesSwitchedOff(inputs.settings) && inputs.settings.autoSend != Value(false)
    ensures PlanOf(inputs).action == AutoSend && inputs.bulk.Replied?
            && (inputs.bulk.proposal.escalate || inputs.bulk.proposal.requiresApproval
                || 0.50 <= inputs.bulk.proposal.confidence <= 0.85) ==>
              inputs.second.Replied? && PlanOf(inputs).draft == Some(DraftOf(inputs.second.proposal, Queued))
  {
  }

  /** The toggle was read as off. It is read after the tag toggle in one try block, so it counts as on if either fails. */
  predicate RepliesSwitchedOff(s: Settings) { s.tagSuggestions.Value? && s.responseGeneration == Value(false) }

  /** When each of the four answers is given, and why; p is the authoritative proposal. */
  predicate ActionFits(p: Proposal, s: Settings, action: Action, reason: Reason) {
    var answered := !p.detectedOptOut && !RepliesSwitchedOff(s);
    var sure := p.confidence > 0.85;
    && (action == Escalate <==> p.detectedOptOut || (answered && p.escalate))
    && (action == Approval <==>
          answered && !p.escalate
          && (p.requiresApproval || (!Blank(p.reply) && !(sure && s.autoSend != Value(false)))))
    && (action == AutoSend <==>
          answered && !p.escalate && !p.requiresApproval && !Blank(p.reply) && sure && s.autoSend != Value(false))
    && (action == Noop <==>
          !p.detectedOptOut && (RepliesSwitchedOff(s) || (!p.escalate && !p.requiresApproval && Blank(p.reply))))
    && (reason in {OptOutDetected, ResponseEscalate} <==> action == Escalate)
    && (reason in {RequiresApproval, AutoSendSuppressed, LowConfidence} <==> action == Approval)
    && (reason in {ResponseGenerationDisabled, NoReply} <==> action == Noop)
    && (reason == OptOutDetected <==> p.detectedOptOut)
    && (reason == RequiresApproval <==> answered && !p.escalate && p.requiresApproval)
    && (reason == AutoSendSuppressed ==> sure) && (reason == LowConfidence ==> !sure)
    && (reason == ResponseGenerationDisabled <==> !p.detectedOptOut && RepliesSwitchedOff(s))
  }

  /** What a committed decision leaves in the rows, for each of the four answers. */
  predicate EffectFits(store: Store, snapshot: State, p: Proposal, action: Action, id: nat, after: Store, message: Option<nat>) {
    var text := if p.contactCard then "Sara Ahmed \U{2014} +971 50 000 0000" else p.reply;
    match action
    case Escalate =>
      && after.conv == Conv(if snapshot == HumanAssigned then store.conv.state else HumanAssigned, false)
      && after.messages == store.messages && message == None
    case Approval =>
      && after.conv == Conv(if snapshot == AwaitingApproval then store.conv.state else AwaitingApproval, store.conv.aiEnabled)
      && after.messages == store.messages[id := Message(text, Draft, p.contactCard)] && message == Some(id)
    case AutoSend =>
      && after.conv == store.conv
      && after.messages == store.messages[id := Message(text, Queued, p.contactCard)] && message == Some(id)
    case Noop =>
      after.conv == store.conv && after.messages == store.messages && message == None
  }

  /** Every committed decision, branch by branch: a person is put in charge with AI off exactly on an opt-out or, with
      replies switched on, an escalation; a draft waits for approval on a flag, a doubt or a switched-off auto-send; the
      reply is queued when nothing speaks against it; and nothing happens with replies switched off or a blank reply. The
      round trip's event is always logged, and the proposed tags are suggested unless switched off or opted out. */
  lemma DecisionExactly(store: Store, snapshot: State, inputs: Inputs, exec: ExecId, id: nat)
    requires Cascade(inputs.bulk, inputs.second).Replied? && Process(store, snapshot, inputs, exec, id).Committed?
    ensures var p := Cascade(inputs.bulk, inputs.second).proposal;
            var Committed(after, message) := Process(store, snapshot, inputs, exec, id);
            && ActionFits(p, inputs.settings, PlanOf(inputs).action, PlanOf(inputs).reason)
            && EffectFits(store, snapshot, p, PlanOf(inputs).action, id, after, message)
            && after.events == store.events + [Event(exec, false)]
            && (after.doNotContact <==> store.doNotContact || p.detectedOptOut)
            && TagsOf(after.suggestions, exec) ==
                 TagsOf(store.suggestions, exec)
                 + (if p.detectedOptOut || inputs.settings.tagSuggestions == Value(false) then [] else NonEmpty(p.tags))
  {
    var p := Cascade(inputs.bulk, inputs.second).proposal;
    SuggestionsReadBack(store.suggestions, exec, PlanOf(inputs).tags, exec);
    if PlanOf(inputs).target.Some? { StaleMoveIsSafe(store.conv, snapshot, PlanOf(inputs).target.value); }
  }

  /** And when it is committed: with the contact there, and unless it must move a conversation whose snapshot is not yet
      where it should go, along a missing arc or after somebody changed it. */
  lemma CommittedExactly(store: Store, snapshot: State, inputs: Inputs, exec: ExecId, id: nat)
    requires Cascade(inputs.bulk, inputs.second).Replied?
    ensures var action := PlanOf(inputs).action; var tx := Process(store, snapshot, inputs, exec, id);
            var target := if action == Escalate then HumanAssigned else AwaitingApproval;
            var moves := action in {Escalate, Approval} && snapshot != target;
            && (tx == RolledBack(ConversationGone) <==> !inputs.hasContact)
            && (tx == RolledBack(ConcurrentModification) <==>
                  inputs.hasContact && moves && CanTransition(snapshot, target) && store.conv.state != snapshot)
            && (tx.Committed? <==>
                  inputs.hasContact && (moves ==> CanTransition(snapshot, target) && store.conv.state == snapshot))
  {
    LegalIffListed(snapshot, HumanAssigned);
    LegalIffListed(snapshot, AwaitingApproval);
  }

  /** Every committed decision honours an inferred opt-out, and only that: the contact is marked, AI goes off, and no
      message and no tag is written, whatever else the answer says. */
  lemma OptOutIsHonoured(store: Store, snapshot: State, inputs: Inputs, exec: ExecId, id: nat)
    requires Cascade(inputs.bulk, inputs.second).Replied?
    requires Process(store, snapshot, inputs, exec, id).Committed?
    ensures var p := Cascade(inputs.bulk, inputs.second).proposal;
            var after := Process(store, snapshot, inputs, exec, id).store;
            && (PlanOf(inputs).optOut <==> p.detectedOptOut)
            && (after.doNotContact <==> store.doNotContact || p.detectedOptOut)
            && (p.detectedOptOut ==>
                  && PlanOf(inputs).action == Escalate && !after.conv.aiEnabled
                  && (snapshot != HumanAssigned ==> after.conv.state == HumanAssigned)
                  && after.messages == store.messages && after.suggestions == store.suggestions)
  {
  }

  /** When an inferred opt-out is lost: from a state that a request's guard lets through, exactly when somebody changed the
      conversation's state between the read and the commit. The contact's mark is rolled back with everything else. */
  lemma OptOutIsLostIff(store: Store, snapshot: State, inputs: Inputs, exec: ExecId, id: nat)
    requires Cascade(inputs.bulk, inputs.second).Replied? && Cascade(inputs.bulk, inputs.second).proposal.detectedOptOut
    requires inputs.hasContact && snapshot != HumanAssigned && snapshot != Closed
    ensures Process(store, snapshot, inputs, exec, id).RolledBack? <==> store.conv.state != snapshot
    ensures store.conv.state != snapshot ==> Process(store, snapshot, inputs, exec, id) == RolledBack(ConcurrentModification)
  {
    HandoffEdge(snapshot);
    LegalIffListed(snapshot, HumanAssigned);
  }

  /** assign_human with the state it read; a conversation already handed off or closed is left alone. */
  datatype Handoff = NothingToDo | HandedOff(store: Store) | HandoffConflict

  function AssignHuman(store: Store, snapshot: State): Handoff {
    if snapshot == HumanAssigned || snapshot == Closed then NothingToDo
    else if AssertTransition(snapshot, HumanAssigned) != Legal then NothingToDo
    else if store.conv.state != snapshot then HandoffConflict
    else HandedOff(store.(conv := Conv(HumanAssigned, false)))
  }

  /** Exhausted retries end with a human in charge and AI off, unless the conversation had already left AI
      handling when it was read or changed under the fallback. */
  lemma FallbackHandsOff(store: Store, snapshot: State)
    ensures AssignHuman(store, snapshot).NothingToDo? <==> snapshot == HumanAssigned || snapshot == Closed
    ensures store.conv.state == snapshot && snapshot != HumanAssigned && snapshot != Closed ==>
              AssignHuman(store, snapshot) == HandedOff(store.(conv := Conv(HumanAssigned, false)))
    ensures AssignHuman(store, snapshot).HandoffConflict? <==>
              snapshot != HumanAssigned && snapshot != Closed && store.conv.state != snapshot
    ensures AssignHuman(store, snapshot).HandedOff? ==> CanTransition(store.conv.state, HumanAssigned)
  {
    HandoffEdge(snapshot);
    LegalIffListed(snapshot, HumanAssigned);
  }

  /** Either every row of the decision is committed or none is; an approval's draft in particular comes with a
      compare-and-set into AWAITING_APPROVAL, unless the snapshot already read that state. */
  lemma DecisionIsAtomic(store: Store, snapshot: State, p: Proposal, hasContact: bool, settings: Settings,
                         exec: ExecId, id: nat)
    requires id !in store.messages
    ensures var plan := Decide(p, hasContact, settings);
            match Apply(store, snapshot, plan, exec, id)
            case RolledBack(_) => plan.target.Some? && snapshot != plan.target.value
            case Committed(after, message) =>
              && after.events == store.events + [Event(exec, false)]
              && |after.suggestions| == |store.suggestions| + |plan.tags|
              && (message.Some? <==> plan.draft.Some?)
              && after.messages.Keys == store.messages.Keys + (if message.Some? then {id} else {})
              && (plan.action == Approval ==>
                    || (snapshot == AwaitingApproval && after.conv == store.conv)
                    || (store.conv.state == snapshot && CanTransition(snapshot, AwaitingApproval)
                        && after.conv == store.conv.(state := AwaitingApproval)))
              && (plan.action == Escalate ==> !after.conv.aiEnabled)
              && (plan.action in {AutoSend, Noop} ==> after.conv == store.conv)
  {
    DraftExactly(p, hasContact, settings);
    var plan := Decide(p, hasContact, settings);
    if plan.target.Some? {
      StaleMoveIsSafe(store.conv, snapshot, plan.target.value);
    }
  }
}
