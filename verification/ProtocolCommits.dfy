/** Decisions commit whole or not at all, once per execution, and a dispatched text is the authoritative tier's. */
module ProtocolCommits {
  import opened StateMachine
  import opened DecisionEngine
  import opened AiProtocol
  import opened Wrappers

  predicate PastDecision(pc: Pc) { pc.Enqueueing? || pc.Releasing? || pc.Done? || pc.Crashed? }

  /** The row's value after the decision's own move and switch-off. */
  predicate Moves(c: Commit, plan: Plan) {
    && MoveTo(c.before, c.snap.state, plan.target).Moved?
    && c.after == var conv := MoveTo(c.before, c.snap.state, plan.target).conv;
                  if plan.aiOff then conv.(aiEnabled := false) else conv
  }

  /** What a commit record says about the rows. */
  predicate Sound(s: System, c: Commit) {
    && !KillBlocked(c.inputs.settings, c.inputs.phone)
    && c.inputs.hasContact
    && Cascade(c.inputs.bulk, c.inputs.second).Replied?
    && var plan := PlanOf(c.inputs);
       && Moves(c, plan)
       && (c.message.Some? <==> plan.draft.Some?)
       && (c.message.Some? ==>
             && c.message.value in s.store.messages
             && s.store.messages[c.message.value].content == plan.draft.value.content)
  }

  predicate CommitsSound(s: System) {
    forall e :: e in s.commits ==> e in s.execs && PastDecision(s.execs[e].pc) && Sound(s, s.commits[e])
  }

  predicate MessagesOwned(s: System) {
    && (forall id :: id in s.store.messages ==> exists e :: e in s.commits && s.commits[e].message == Some(id))
    && (forall e, f ::
          (e in s.commits && f in s.commits && s.commits[e].message.Some? && s.commits[e].message == s.commits[f].message)
          ==> e == f)
  }

  function Count(events: seq<Event>, event: Event): nat {
    if events == [] then 0
    else Count(events[..|events| - 1], event) + (if events[|events| - 1] == event then 1 else 0)
  }

  /** One success event per committed decision, one error event per failed call. */
  ghost predicate EventsMatch(s: System) {
    && (forall e :: Count(s.store.events, Event(e, false)) == if e in s.commits then 1 else 0)
    && (forall e :: Count(s.store.events, Event(e, true)) == if e in s.execs && s.execs[e].errored then 1 else 0)
  }

  /** The suggestions stored for an execution are exactly its committed decision's tags. */
  ghost predicate SuggestionsMatch(s: System) {
    forall e :: TagsOf(s.store.suggestions, e) == TagsCommitted(s, e)
  }

  function TagsCommitted(s: System, e: ExecId): seq<string> {
    if e in s.commits && Cascade(s.commits[e].inputs.bulk, s.commits[e].inputs.second).Replied?
    then PlanOf(s.commits[e].inputs).tags else []
  }

  /** e committed an auto-send of this message. */
  predicate AutoSent(s: System, e: ExecId, message: nat) {
    && e in s.commits
    && Cascade(s.commits[e].inputs.bulk, s.commits[e].inputs.second).Replied?
    && PlanOf(s.commits[e].inputs).action == AutoSend
    && s.commits[e].message == Some(message)
  }

  predicate SendersOwned(s: System) {
    && (forall e :: e in s.execs && s.execs[e].pc.Enqueueing? ==>
          AutoSent(s, e, s.execs[e].pc.message) && e !in s.senders)
    && (forall e :: e in s.senders ==> AutoSent(s, e, s.senders[e].message))
  }

  /** Before its decision an execution has no commit record and no error event. */
  predicate BeforeDecision(s: System) {
    && (forall e :: e in s.execs && !PastDecision(s.execs[e].pc) ==> e !in s.commits)
    && (forall e :: e in s.execs && (s.execs[e].pc.Waiting? || s.execs[e].pc.Locked? || s.execs[e].pc.Thinking?) ==>
          !s.execs[e].errored)
    && (forall e :: e in s.commits ==> e in s.execs && !s.execs[e].errored)
  }

  ghost predicate Inv(s: System) {
    && CommitsSound(s) && MessagesOwned(s) && EventsMatch(s) && SuggestionsMatch(s)
    && SendersOwned(s) && BeforeDecision(s)
  }

  /** The one step that adds a commit record, with everything it writes. */
  predicate Decides(s: System, step: Step) {
    && step.Think? && Enabled(s, step)
    && !KillBlocked(step.inputs.settings, step.inputs.phone)
    && Cascade(step.inputs.bulk, step.inputs.second).Replied?
    && Process(s.store, s.execs[step.e].pc.snap.state, step.inputs, step.e, step.id).Committed?
  }

  predicate Errs(s: System, step: Step) {
    && step.Think? && Enabled(s, step)
    && !KillBlocked(step.inputs.settings, step.inputs.phone)
    && step.inputs.hasContact
    && Cascade(step.inputs.bulk, step.inputs.second).Failed?
  }

  function Written(s: System, step: Step): Transaction
    requires Decides(s, step)
  {
    Process(s.store, s.execs[step.e].pc.snap.state, step.inputs, step.e, step.id)
  }

  lemma DecisionWrites(s: System, step: Step)
    requires Decides(s, step)
    ensures var t := Do(s, step); var w := Written(s, step); var plan := PlanOf(step.inputs);
            && t.store == w.store
            && t.commits == s.commits[step.e := Commit(step.inputs, s.execs[step.e].pc.snap, s.store.conv, w.store.conv, w.message)]
            && t.senders == s.senders
            && t.execs == s.execs[step.e := s.execs[step.e].(pc :=
                 if plan.action == AutoSend && w.message.Some? then Enqueueing(w.message.value, step.delay)
                 else Releasing(Decided(plan.action)))]
            && w.store.events == s.store.events + [Event(step.e, false)]
            && w.store.suggestions == s.store.suggestions + Suggestions(step.e, plan.tags)
            && w.message == (if plan.draft.Some? then Some(step.id) else None)
            && w.store.messages == (if plan.draft.Some? then s.store.messages[step.id := plan.draft.value] else s.store.messages)
            && Moves(t.commits[step.e], plan)
  {
  }

  /** Any other step leaves commit records and suggestions alone, keeps message texts, and logs at most the
      one error event of a failed call. */
  lemma OtherStepsWrite(s: System, step: Step)
    requires Enabled(s, step) && !Decides(s, step)
    ensures var t := Do(s, step);
            && t.commits == s.commits
            && t.store.suggestions == s.store.suggestions
            && t.store.events == s.store.events + (if Errs(s, step) then [Event(step.e, true)] else [])
            && t.store.messages.Keys == s.store.messages.Keys
            && forall id :: id in s.store.messages ==> t.store.messages[id].content == s.store.messages[id].content
  {
    OtherStepsLog(s, step);
    TextsKept(s, step);
  }

  lemma OtherStepsLog(s: System, step: Step)
    requires Enabled(s, step) && !Decides(s, step)
    ensures var t := Do(s, step);
            && t.commits == s.commits
            && t.store.suggestions == s.store.suggestions
            && t.store.events == s.store.events + (if Errs(s, step) then [Event(step.e, true)] else [])
  {
    match step
    case Think(e, inputs, id, delay) =>
    case PersonCommits(h, promoted) =>
    case _ =>
  }

  lemma TextsKept(s: System, step: Step)
    requires Enabled(s, step) && !Decides(s, step)
    ensures Do(s, step).store.messages.Keys == s.store.messages.Keys
    ensures forall id :: id in s.store.messages ==> Do(s, step).store.messages[id].content == s.store.messages[id].content
  {
    match step
    case Think(e, inputs, id, delay) =>
    case PersonCommits(h, promoted) =>
    case _ =>
  }

  /** How one execution's record moves when its step commits no decision. */
  lemma ExecAfter(s: System, step: Step, f: ExecId)
    requires Enabled(s, step) && !Decides(s, step)
    ensures f in s.execs ==> f in Do(s, step).execs
    ensures var t := Do(s, step);
            f in t.execs ==>
              var y := t.execs[f];
              if f in s.execs then
                var x := s.execs[f];
                && (PastDecision(x.pc) && !step.Retry? ==> PastDecision(y.pc))
                && (y.pc.Enqueueing? ==> x.pc == y.pc && step != Enqueue(f))
                && y.errored == (x.errored || (Errs(s, step) && step.e == f))
                && (y.pc.Waiting? || y.pc.Locked? || y.pc.Thinking? ==> x.pc.Waiting? || x.pc.Locked? || x.pc.Thinking?)
                && (Errs(s, step) && step.e == f ==> y.pc.CallFailed?)
                && (!PastDecision(y.pc) ==> !PastDecision(x.pc))
              else y.pc.Waiting? && !y.errored && !y.retried.Some?
  {
    if ActsOn(step, f) { ActingExec(s, step, f); if step.Think? { ThinkOutcome(s, step, f); } } else { OtherExecs(s, step, f); }
  }

  lemma ThinkOutcome(s: System, step: Step, f: ExecId)
    requires Enabled(s, step) && !Decides(s, step) && ActsOn(step, f) && step.Think?
    ensures var y := Do(s, step).execs[f];
            if Errs(s, step) then y.pc.CallFailed? && y.errored
            else y.pc.Releasing? && y.errored == s.execs[f].errored
  {
  }

  lemma RetryKeepsPast(s: System, step: Step, f: ExecId)
    requires Enabled(s, step) && step.Retry? && f in s.execs && PastDecision(s.execs[f].pc)
    ensures f in Do(s, step).execs && PastDecision(Do(s, step).execs[f].pc)
  {
  }

  lemma SendersAfter(s: System, step: Step, f: ExecId)
    requires Enabled(s, step) && SendersOwned(s)
    ensures var t := Do(s, step);
            && (f in s.senders ==> f in t.senders && t.senders[f].message == s.senders[f].message)
            && (f in t.senders && f !in s.senders ==>
                  step == Enqueue(f) && t.senders[f].message == s.execs[f].pc.message && !t.execs[f].pc.Enqueueing?)
  {
  }

  // ------------------------------------------------------------ preservation

  lemma DecidedCommitSound(s: System, step: Step, f: ExecId)
    requires Decides(s, step) && Inv(s)
    ensures var t := Do(s, step);
            f in t.commits ==> f in t.execs && PastDecision(t.execs[f].pc) && Sound(t, t.commits[f])
  {
  }

  lemma OtherCommitSound(s: System, step: Step, f: ExecId)
    requires Enabled(s, step) && !Decides(s, step) && Inv(s) && f in Do(s, step).commits
    ensures var t := Do(s, step); f in t.execs && PastDecision(t.execs[f].pc) && Sound(t, t.commits[f])
  {
    OtherStepsWrite(s, step);
    ExecAfter(s, step, f);
    if step.Retry? { RetryKeepsPast(s, step, f); }
    assert Sound(s, s.commits[f]);
  }

  lemma CommitsStaySound(s: System, step: Step)
    requires Enabled(s, step) && Inv(s)
    ensures CommitsSound(Do(s, step))
  {
    var t := Do(s, step);
    forall f | f in t.commits ensures f in t.execs && PastDecision(t.execs[f].pc) && Sound(t, t.commits[f]) {
      if Decides(s, step) { DecidedCommitSound(s, step, f); } else { OtherCommitSound(s, step, f); }
    }
  }

  lemma DecidedMessagesOwned(s: System, step: Step)
    requires Decides(s, step) && Inv(s)
    ensures MessagesOwned(Do(s, step))
  {
    var t := Do(s, step);
    DecisionWrites(s, step);
    assert step.e !in s.commits;
    forall id | id in t.store.messages ensures exists e :: e in t.commits && t.commits[e].message == Some(id) {
      if id in s.store.messages {
        var e :| e in s.commits && s.commits[e].message == Some(id);
        assert t.commits[e].message == Some(id);
      } else {
        assert t.commits[step.e].message == Some(id);
      }
    }
    forall e, f | e in t.commits && f in t.commits && t.commits[e].message.Some?
                  && t.commits[e].message == t.commits[f].message ensures e == f {
      if e != step.e { assert Sound(s, s.commits[e]); }
      if f != step.e { assert Sound(s, s.commits[f]); }
    }
  }

  lemma MessagesStayOwned(s: System, step: Step)
    requires Enabled(s, step) && Inv(s)
    ensures MessagesOwned(Do(s, step))
  {
    if Decides(s, step) { DecidedMessagesOwned(s, step); } else { OtherStepsWrite(s, step); }
  }

  lemma CountAppend(events: seq<Event>, extra: Event, event: Event)
    ensures Count(events + [extra], event) == Count(events, event) + (if extra == event then 1 else 0)
  {
    assert (events + [extra])[..|events + [extra]| - 1] == events;
  }

  lemma SuccessEventAfter(s: System, step: Step, e: ExecId)
    requires Enabled(s, step) && Inv(s)
    ensures Count(Do(s, step).store.events, Event(e, false)) == if e in Do(s, step).commits then 1 else 0
  {
    if Decides(s, step) {
      DecisionWrites(s, step);
      CountAppend(s.store.events, Event(step.e, false), Event(e, false));
      assert step.e !in s.commits;
    } else {
      OtherStepsWrite(s, step);
      if Errs(s, step) { CountAppend(s.store.events, Event(step.e, true), Event(e, false)); }
      else { assert s.store.events + [] == s.store.events; }
    }
  }

  lemma ErrorEventAfter(s: System, step: Step, e: ExecId)
    requires Enabled(s, step) && Inv(s)
    ensures Count(Do(s, step).store.events, Event(e, true)) ==
            if e in Do(s, step).execs && Do(s, step).execs[e].errored then 1 else 0
  {
    if Decides(s, step) {
      DecisionWrites(s, step);
      CountAppend(s.store.events, Event(step.e, false), Event(e, true));
    } else {
      OtherStepsWrite(s, step);
      ExecAfter(s, step, e);
      if Errs(s, step) {
        CountAppend(s.store.events, Event(step.e, true), Event(e, true));
        assert !s.execs[step.e].errored;
      } else { assert s.store.events + [] == s.store.events; }
    }
  }

  lemma EventsStayMatched(s: System, step: Step)
    requires Enabled(s, step) && Inv(s)
    ensures EventsMatch(Do(s, step))
  {
    forall e
      ensures Count(Do(s, step).store.events, Event(e, false)) == if e in Do(s, step).commits then 1 else 0
      ensures Count(Do(s, step).store.events, Event(e, true)) ==
              if e in Do(s, step).execs && Do(s, step).execs[e].errored then 1 else 0
    {
      SuccessEventAfter(s, step, e);
      ErrorEventAfter(s, step, e);
    }
  }

  lemma SuggestionsAfter(s: System, step: Step, e: ExecId)
    requires Enabled(s, step) && Inv(s)
    ensures TagsOf(Do(s, step).store.suggestions, e) == TagsCommitted(Do(s, step), e)
  {
    if Decides(s, step) {
      DecisionWrites(s, step);
      assert step.e !in s.commits;
      SuggestionsReadBack(s.store.suggestions, step.e, PlanOf(step.inputs).tags, e);
    } else {
      OtherStepsWrite(s, step);
    }
  }

  lemma SuggestionsStayMatched(s: System, step: Step)
    requires Enabled(s, step) && Inv(s)
    ensures SuggestionsMatch(Do(s, step))
  {
    forall e ensures TagsOf(Do(s, step).store.suggestions, e) == TagsCommitted(Do(s, step), e) {
      SuggestionsAfter(s, step, e);
    }
  }

  lemma SenderStaysOwned(s: System, step: Step, e: ExecId)
    requires Enabled(s, step) && Inv(s) && !Decides(s, step)
    ensures var t := Do(s, step); e in t.senders ==> AutoSent(t, e, t.senders[e].message)
  {
    OtherStepsWrite(s, step);
    SendersAfter(s, step, e);
    if e in s.senders {
      assert AutoSent(s, e, s.senders[e].message);
    } else if e in Do(s, step).senders {
      assert AutoSent(s, e, s.execs[e].pc.message);
    }
  }

  lemma EnqueueingStaysOwned(s: System, step: Step, e: ExecId)
    requires Enabled(s, step) && Inv(s) && !Decides(s, step)
    ensures var t := Do(s, step);
            e in t.execs && t.execs[e].pc.Enqueueing? ==> AutoSent(t, e, t.execs[e].pc.message) && e !in t.senders
  {
    OtherStepsWrite(s, step);
    ExecAfter(s, step, e);
    SendersAfter(s, step, e);
    if e in s.execs && s.execs[e].pc.Enqueueing? { assert AutoSent(s, e, s.execs[e].pc.message); }
  }

  lemma DecidedSenderOwned(s: System, step: Step, e: ExecId)
    requires Decides(s, step) && Inv(s)
    ensures var t := Do(s, step); e in t.senders ==> AutoSent(t, e, t.senders[e].message)
  {
    DecisionWrites(s, step);
    assert step.e !in s.commits;
    if e in s.senders { assert AutoSent(s, e, s.senders[e].message); }
  }

  lemma DecidedEnqueueingOwned(s: System, step: Step, e: ExecId)
    requires Decides(s, step) && Inv(s)
    ensures var t := Do(s, step);
            e in t.execs && t.execs[e].pc.Enqueueing? ==> AutoSent(t, e, t.execs[e].pc.message) && e !in t.senders
  {
    DecisionWrites(s, step);
    assert step.e !in s.commits;
    if e != step.e && e in s.execs && s.execs[e].pc.Enqueueing? {
      assert AutoSent(s, e, s.execs[e].pc.message);
    }
  }

  lemma SendersStayOwned(s: System, step: Step)
    requires Enabled(s, step) && Inv(s)
    ensures SendersOwned(Do(s, step))
  {
    var t := Do(s, step);
    forall e | e in t.senders ensures AutoSent(t, e, t.senders[e].message) {
      if Decides(s, step) { DecidedSenderOwned(s, step, e); } else { SenderStaysOwned(s, step, e); }
    }
    forall e | e in t.execs && t.execs[e].pc.Enqueueing?
      ensures AutoSent(t, e, t.execs[e].pc.message) && e !in t.senders
    {
      if Decides(s, step) { DecidedEnqueueingOwned(s, step, e); } else { EnqueueingStaysOwned(s, step, e); }
    }
  }

  lemma DecidedKeepsBefore(s: System, step: Step)
    requires Decides(s, step) && Inv(s)
    ensures BeforeDecision(Do(s, step))
  {
    DecisionWrites(s, step);
  }

  lemma OtherKeepsBefore(s: System, step: Step, e: ExecId)
    requires Enabled(s, step) && !Decides(s, step) && Inv(s)
    ensures var t := Do(s, step);
            && (e in t.execs && !PastDecision(t.execs[e].pc) ==> e !in t.commits)
            && (e in t.execs && (t.execs[e].pc.Waiting? || t.execs[e].pc.Locked? || t.execs[e].pc.Thinking?) ==>
                  !t.execs[e].errored)
            && (e in t.commits ==> e in t.execs && !t.execs[e].errored)
  {
    OtherStepsWrite(s, step);
    ExecAfter(s, step, e);
    if e in s.commits { assert PastDecision(s.execs[e].pc); }
  }

  lemma BeforeDecisionKept(s: System, step: Step)
    requires Enabled(s, step) && Inv(s)
    ensures BeforeDecision(Do(s, step))
  {
    if Decides(s, step) {
      DecidedKeepsBefore(s, step);
    } else {
      var t := Do(s, step);
      forall e
        ensures e in t.execs && !PastDecision(t.execs[e].pc) ==> e !in t.commits
        ensures e in t.execs && (t.execs[e].pc.Waiting? || t.execs[e].pc.Locked? || t.execs[e].pc.Thinking?) ==>
                  !t.execs[e].errored
        ensures e in t.commits ==> e in t.execs && !t.execs[e].errored
      {
        OtherKeepsBefore(s, step, e);
      }
    }
  }

  lemma StepKeepsInv(s: System, step: Step)
    requires Enabled(s, step) && Inv(s)
    ensures Inv(Do(s, step))
  {
    CommitsStaySound(s, step);
    MessagesStayOwned(s, step);
    EventsStayMatched(s, step);
    SuggestionsStayMatched(s, step);
    SendersStayOwned(s, step);
    BeforeDecisionKept(s, step);
  }

  lemma {:induction false} RunKeepsInv(s: System, steps: seq<Step>)
    requires Valid(s, steps) && Inv(s)
    ensures Inv(Run(s, steps))
    decreases |steps|
  {
    if steps != [] {
      StepKeepsInv(s, steps[0]);
      RunKeepsInv(Do(s, steps[0]), steps[1..]);
    }
  }

  // ------------------------------------------------------------ results

  /** In every run, rows only exist with their commit: each AI message belongs to one committed decision, an execution's
      stored suggestions are exactly its decision's tags, in order and once each, and it logged exactly one success
      event; an execution without a commit has none of them. */
  lemma RowsBelongToCommits(clock: int, conv: Conv, steps: seq<Step>)
    requires Valid(Initial(clock, conv), steps)
    ensures var s := Run(Initial(clock, conv), steps);
            && MessagesOwned(s)
            && (forall e :: e in s.commits ==>
                  && Cascade(s.commits[e].inputs.bulk, s.commits[e].inputs.second).Replied?
                  && TagsOf(s.store.suggestions, e) == PlanOf(s.commits[e].inputs).tags)
            && (forall e :: e !in s.commits ==> TagsOf(s.store.suggestions, e) == [])
            && forall e :: Count(s.store.events, Event(e, false)) == if e in s.commits then 1 else 0
  {
    RunKeepsInv(Initial(clock, conv), steps);
    var s := Run(Initial(clock, conv), steps);
    forall e | e in s.commits ensures Sound(s, s.commits[e]) {
    }
  }

  /** What a committed decision did to the row. */
  predicate RowFollowsDecision(c: Commit)
    requires Cascade(c.inputs.bulk, c.inputs.second).Replied?
  {
    && (PlanOf(c.inputs).action == Approval ==>
          && c.message.Some?
          && ((c.snap.state == AwaitingApproval && c.after == c.before)
              || (c.before.state == c.snap.state && CanTransition(c.before.state, AwaitingApproval)
                  && c.after == c.before.(state := AwaitingApproval))))
    && (PlanOf(c.inputs).action == Escalate ==> !c.after.aiEnabled)
    && (PlanOf(c.inputs).action in {AutoSend, Noop} ==> c.after == c.before)
  }

  lemma SoundFollows(s: System, c: Commit)
    requires Sound(s, c)
    ensures RowFollowsDecision(c)
  {
    DraftExactly(Cascade(c.inputs.bulk, c.inputs.second).proposal, c.inputs.hasContact, c.inputs.settings);
    var plan := PlanOf(c.inputs);
    if plan.target.Some? { StaleMoveIsSafe(c.before, c.snap.state, plan.target.value); }
  }

  /** A committed approval has its draft, and its transaction moved the row from the state it had read into
      AWAITING_APPROVAL, or its snapshot already read that state and the row was left as it was. */
  lemma ApprovalsAreBacked(clock: int, conv: Conv, steps: seq<Step>, e: ExecId)
    requires Valid(Initial(clock, conv), steps) && e in Run(Initial(clock, conv), steps).commits
    ensures var c := Run(Initial(clock, conv), steps).commits[e];
            Cascade(c.inputs.bulk, c.inputs.second).Replied? && RowFollowsDecision(c)
  {
    RunKeepsInv(Initial(clock, conv), steps);
    var s := Run(Initial(clock, conv), steps);
    SoundFollows(s, s.commits[e]);
  }

  /** The text of every message a sender may dispatch is the authoritative tier's reply (or the contact card),
      and that tier was unflagged, confident and non-blank with both toggles on. */
  lemma SentTextIsAuthoritative(clock: int, conv: Conv, steps: seq<Step>, e: ExecId)
    requires Valid(Initial(clock, conv), steps) && e in Run(Initial(clock, conv), steps).senders
    ensures var s := Run(Initial(clock, conv), steps);
            && e in s.commits && s.senders[e].message in s.store.messages
            && var inputs := s.commits[e].inputs;
               && Cascade(inputs.bulk, inputs.second).Replied?
               && var p := Cascade(inputs.bulk, inputs.second).proposal;
                  && s.store.messages[s.senders[e].message].content == (if p.contactCard then DEMO_CARD else p.reply)
                  && !p.detectedOptOut && !p.escalate && !p.requiresApproval
                  && p.confidence > AUTO_REPLY && !Blank(p.reply)
                  && ResponsesOn(inputs.settings) && AutoSendOn(inputs.settings)
                  && !KillBlocked(inputs.settings, inputs.phone)
  {
    RunKeepsInv(Initial(clock, conv), steps);
    var s := Run(Initial(clock, conv), steps);
    assert AutoSent(s, e, s.senders[e].message);
    assert Sound(s, s.commits[e]);
    AutoSendExactly(s.store, New, s.commits[e].inputs, e, 0);
  }
}
