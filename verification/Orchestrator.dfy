/** The request and send tasks as they run: a lock, sessions that read first and write later, rollback on errors,
    and other actors' commits in between. Each method is proved against the decision engine's functions. */
module Orchestrator {
  import opened StateMachine
  import opened DecisionEngine
  import opened AiProtocol
  import ProtocolCommits
  import opened Wrappers

  /** SET NX EX and DEL on the conversation's key. */
  class Redis {
    var key: Option<int>

    predicate Free(now: int)
      reads this
    {
      key.None? || now >= key.value
    }

    constructor ()
      ensures key == None
    {
      key := None;
    }

    method SetNx(now: int, ttl: int) returns (acquired: bool)
      modifies this
      ensures acquired == old(Free(now))
      ensures key == if acquired then Some(now + ttl) else old(key)
    {
      acquired := key.None? || now >= key.value;
      if acquired { key := Some(now + ttl); }
    }

    method Delete()
      modifies this
      ensures key == None
    {
      key := None;
    }
  }

  /** The committed rows. */
  class Database {
    var store: Store

    constructor (store: Store)
      ensures this.store == store
    {
      this.store := store;
    }

    /** Whatever other actors commit before the next statement. */
    method Others(after: Store)
      modifies this
      ensures store == after
    {
      store := after;
    }
  }

  /** What process_inbound hands to its caller: a decision, or the exception it raises. */
  datatype Inbound = Blocked | Proposed(action: Action, message: Option<nat>) | ProviderFailed(retryable: bool) | Lost(error: CommitError)

  // ------------------------------------------------------------ orchestrator

  /** One session: the conversation as loaded, and the open transaction's view of the rows. */
  class AiOrchestrator {
    const db: Database
    var conv: Conv
    var work: Store

    /** Opens the session and loads the conversation. */
    constructor (db: Database)
      ensures this.db == db && conv == db.store.conv && work == db.store
    {
      this.db := db;
      conv := db.store.conv;
      work := db.store;
    }

    /** The second tier is asked only when the first draft needs judgement. */
    method CascadeRoute(bulk: Call, second: Call) returns (answer: Call, calls: nat)
      ensures answer == Cascade(bulk, second)
      ensures var settled := bulk.Failed? || (!bulk.proposal.escalate && !bulk.proposal.requiresApproval
                                              && (bulk.proposal.confidence < 0.50 || bulk.proposal.confidence > 0.85));
              answer == (if settled then bulk else second) && calls == (if settled then 1 else 2)
    {
      calls := 1;
      match bulk
      case Failed(_) => answer := bulk;
      case Replied(p) =>
        if NeedsEscalation(p) {
          answer := second;
          calls := calls + 1;
        } else {
          answer := bulk;
        }
    }

    method CreateDraftMessage(id: nat, p: Proposal, status: Status)
      modifies this`work
      ensures work == old(work).(messages := old(work).messages[id := DraftOf(p, status)])
    {
      var content := p.reply;
      if p.contactCard { content := DEMO_CARD; }
      work := work.(messages := work.messages[id := Message(content, status, p.contactCard)]);
    }

    method SuggestTags(exec: ExecId, tags: seq<string>)
      modifies this`work
      ensures work == old(work).(suggestions := old(work).suggestions + Suggestions(exec, NonEmpty(tags)))
    {
      ghost var before := work;
      var i := 0;
      while i < |tags|
        invariant 0 <= i <= |tags|
        invariant work == before.(suggestions := before.suggestions + Suggestions(exec, NonEmpty(tags[..i])))
      {
        assert tags[..i + 1][..i] == tags[..i];
        if |tags[i]| > 0 {
          work := work.(suggestions := work.suggestions + [Suggestion(exec, tags[i])]);
          assert Suggestions(exec, NonEmpty(tags[..i]) + [tags[i]]) ==
                 Suggestions(exec, NonEmpty(tags[..i])) + [Suggestion(exec, tags[i])];
        }
        i := i + 1;
      }
      assert tags[..i] == tags;
    }

    /** Checks the table on the loaded state, then updates the row only if it still has that state. */
    method Transition(target: State) returns (r: Result<(), CommitError>)
      modifies this`work
      ensures match Move(old(work).conv, conv.state, target)
              case Refused(e) => r == Err(e) && work == old(work)
              case Moved(c) => r.Ok? && work == old(work).(conv := c)
    {
      if conv.state == target { return Ok(()); }
      var verdict := AssertTransition(conv.state, target);
      if verdict != Legal { return Err(Rejected(verdict)); }
      if work.conv.state != conv.state { return Err(ConcurrentModification); }
      work := work.(conv := work.conv.(state := target));
      return Ok(());
    }

    method SwitchAiOff()
      modifies this`work
      ensures work == old(work).(conv := old(work).conv.(aiEnabled := false))
    {
      work := work.(conv := work.conv.(aiEnabled := false));
    }

    /** The decision rules, writing into the open transaction. A refused move leaves the transaction to be rolled back. */
    method ApplyRules(p: Proposal, hasContact: bool, settings: Settings, exec: ExecId, id: nat)
      returns (r: Result<(Action, Option<nat>), CommitError>)
      modifies this`work
      ensures var plan := Decide(p, hasContact, settings); var before := old(work);
              match MoveTo(before.conv, conv.state, plan.target)
              case Refused(e) => r == Err(e)
              case Moved(c) =>
                && r == Ok((plan.action, if plan.draft.Some? then Some(id) else None))
                && work == Store(if plan.aiOff then c.(aiEnabled := false) else c,
                                 if plan.draft.Some? then before.messages[id := plan.draft.value] else before.messages,
                                 before.suggestions + Suggestions(exec, plan.tags),
                                 before.events,
                                 before.doNotContact || plan.optOut)
    {
      assert Suggestions(exec, []) == [];
      if p.detectedOptOut && hasContact {
        work := work.(doNotContact := true);
        var moved := Transition(HumanAssigned);
        if moved.Err? { return Err(moved.error); }
        SwitchAiOff();
        return Ok((Escalate, None));
      }
      if TagsOn(settings) && hasContact { SuggestTags(exec, p.tags); }
      if !ResponsesOn(settings) { return Ok((Noop, None)); }
      if p.escalate {
        var moved := Transition(HumanAssigned);
        if moved.Err? { return Err(moved.error); }
        SwitchAiOff();
        return Ok((Escalate, None));
      }
      if p.requiresApproval {
        r := AskForApproval(p, id);
        return;
      }
      if p.confidence > AUTO_REPLY && !Blank(p.reply) {
        if !AutoSendOn(settings) {
          r := AskForApproval(p, id);
          return;
        }
        CreateDraftMessage(id, p, Queued);
        return Ok((AutoSend, Some(id)));
      }
      if !Blank(p.reply) {
        r := AskForApproval(p, id);
        return;
      }
      return Ok((Noop, None));
    }

    /** The draft row comes first, then the move into AWAITING_APPROVAL. */
    method AskForApproval(p: Proposal, id: nat) returns (r: Result<(Action, Option<nat>), CommitError>)
      modifies this`work
      ensures match Move(old(work).conv, conv.state, AwaitingApproval)
              case Refused(e) => r == Err(e)
              case Moved(c) =>
                && r == Ok((Approval, Some(id)))
                && work == old(work).(messages := old(work).messages[id := DraftOf(p, Draft)], conv := c)
    {
      CreateDraftMessage(id, p, Draft);
      var moved := Transition(AwaitingApproval);
      r := if moved.Ok? then Ok((Approval, Some(id))) else Err(moved.error);
    }

    /** Kill switch, cascade, event, rules, commit; a failed round trip commits its error event before raising, and a
        refused move commits nothing. With the contact row missing the event's insert fails. */
    method ProcessInbound(inputs: Inputs, exec: ExecId, id: nat) returns (r: Inbound)
      modifies this`work, db
      ensures if KillBlocked(inputs.settings, inputs.phone) then r == Blocked && db.store == old(db.store) else
              if !inputs.hasContact then r == Lost(ConversationGone) && db.store == old(db.store) else
              match Cascade(inputs.bulk, inputs.second)
              case Failed(retryable) =>
                r == ProviderFailed(retryable) && db.store == old(db.store).(events := old(db.store).events + [Event(exec, true)])
              case Replied(_) =>
                match Process(old(db.store), conv.state, inputs, exec, id)
                case RolledBack(e) => r == Lost(e) && db.store == old(db.store)
                case Committed(after, message) => r == Proposed(PlanOf(inputs).action, message) && db.store == after
    {
      if KillBlocked(inputs.settings, inputs.phone) { return Blocked; }
      work := db.store;
      var answer, calls := CascadeRoute(inputs.bulk, inputs.second);
      if !inputs.hasContact { return Lost(ConversationGone); }
      if answer.Failed? {
        work := work.(events := work.events + [Event(exec, true)]);
        db.store := work;
        return ProviderFailed(answer.retryable);
      }
      work := work.(events := work.events + [Event(exec, false)]);
      var decided := ApplyRules(answer.proposal, inputs.hasContact, inputs.settings, exec, id);
      if decided.Err? {
        work := db.store;
        return Lost(decided.error);
      }
      db.store := work;
      return Proposed(decided.value.0, decided.value.1);
    }

    /** The fallback after exhausted retries; others may commit between its read and its update. */
    method TakeOver(others: Store) returns (r: Handoff)
      modifies this`conv, this`work, db
      ensures r == AssignHuman(others, old(db.store).conv.state) && conv == old(db.store).conv
      ensures db.store == if r.HandedOff? then r.store else others
    {
      conv := db.store.conv;
      db.Others(others);
      work := db.store;
      if conv.state == HumanAssigned || conv.state == Closed { return NothingToDo; }
      if AssertTransition(conv.state, HumanAssigned) != Legal { return NothingToDo; }
      if work.conv.state != conv.state { return HandoffConflict; }
      work := work.(conv := work.conv.(state := HumanAssigned));
      SwitchAiOff();
      db.store := work;
      return HandedOff(work);
    }
  }

  // ------------------------------------------------------------ tasks

  /** A task put on the queue. */
  datatype Job = SendReply(message: nat, eta: int) | RetryRequest(exec: ExecId, eta: int)

  /** What others have made of the rows when the decision's transaction runs, when the fallback reads, and when it writes. */
  datatype Others = Others(atDecision: Store, atFallbackRead: Store, atFallbackWrite: Store)

  /** Others only append to the event log, and nothing about this execution. */
  predicate OthersLog(e: ExecId, before: Store, after: Store) {
    && before.events <= after.events
    && ProtocolCommits.Count(after.events, Event(e, true)) == ProtocolCommits.Count(before.events, Event(e, true))
  }

  /** The answer sends the request to the human fallback. */
  predicate Exhausted(e: ExecId, inputs: Inputs) {
    && !KillBlocked(inputs.settings, inputs.phone) && inputs.hasContact
    && Cascade(inputs.bulk, inputs.second).Failed?
    && !(Cascade(inputs.bulk, inputs.second).retryable && e.attempt < |RETRY_DELAYS|)
  }

  function WithError(store: Store, e: ExecId): Store { store.(events := store.events + [Event(e, true)]) }

  predicate OthersFit(e: ExecId, inputs: Inputs, before: Store, others: Others) {
    && OthersLog(e, before, others.atDecision)
    && (Exhausted(e, inputs) ==>
          && OthersLog(e, WithError(others.atDecision, e), others.atFallbackRead)
          && OthersLog(e, others.atFallbackRead, others.atFallbackWrite))
  }

  /** before's log followed by one error event of e, and by nothing else about e's failures. */
  predicate LogsOneError(e: ExecId, before: Store, after: Store) {
    && before.events + [Event(e, true)] <= after.events
    && ProtocolCommits.Count(after.events, Event(e, true)) == ProtocolCommits.Count(before.events, Event(e, true)) + 1
  }

  lemma FallbackLogsOnce(e: ExecId, inputs: Inputs, before: Store, others: Others)
    requires OthersFit(e, inputs, before, others) && Exhausted(e, inputs)
    ensures LogsOneError(e, others.atDecision, others.atFallbackWrite)
  {
    ProtocolCommits.CountAppend(others.atDecision.events, Event(e, true), Event(e, true));
  }

  /** The end of a request that passed the guard, for any behaviour of the provider and of the other actors. */
  predicate Handled(snap: Conv, e: ExecId, now: int, inputs: Inputs, id: nat, delay: nat, others: Others,
                    after: Store, jobs: seq<Job>, out: Outcome) {
    if KillBlocked(inputs.settings, inputs.phone) then after == others.atDecision && jobs == [] && out == KillSwitch else
    if !inputs.hasContact then after == others.atDecision && jobs == [] && out == Raised else
    match Cascade(inputs.bulk, inputs.second)
    case Replied(_) =>
      (match Process(others.atDecision, snap.state, inputs, e, id)
       case RolledBack(_) => after == others.atDecision && jobs == [] && out == Raised
       case Committed(store, message) =>
         && after == store && out == Decided(PlanOf(inputs).action)
         && jobs == if PlanOf(inputs).action == AutoSend && message.Some? then [SendReply(message.value, now + delay)] else [])
    case Failed(retryable) =>
      if retryable && e.attempt < |RETRY_DELAYS| then
        && after == WithError(others.atDecision, e)
        && out == WillRetry(RETRY_DELAYS[e.attempt])
        && jobs == [RetryRequest(NextAttempt(e), now + RETRY_DELAYS[e.attempt])]
      else
        && jobs == [] && LogsOneError(e, others.atDecision, after)
        && match AssignHuman(others.atFallbackWrite, others.atFallbackRead.conv.state)
           case NothingToDo => after == others.atFallbackWrite && out == FellBack(false, others.atFallbackRead.conv.state)
           case HandoffConflict => after == others.atFallbackWrite && out == Raised
           case HandedOff(store) => after == store && out == FellBack(true, others.atFallbackRead.conv.state)
  }

  class Worker {
    const db: Database
    const redis: Redis
    var queue: seq<Job>
    var dispatched: seq<nat>

    constructor (db: Database, redis: Redis)
      ensures this.db == db && this.redis == redis && queue == [] && dispatched == []
    {
      this.db := db;
      this.redis := redis;
      queue := [];
      dispatched := [];
    }

    /** The Celery task: without the key nothing happens at all; with it, the key is deleted on every way out. */
    method RequestAiReply(e: ExecId, now: int, inputs: Inputs, id: nat, delay: nat, others: Others) returns (out: Outcome)
      requires OthersFit(e, inputs, db.store, others)
      modifies this`queue, db, redis
      ensures !old(redis.Free(now)) ==>
                out == LockHeld && redis.key == old(redis.key) && db.store == old(db.store) && queue == old(queue)
      ensures old(redis.Free(now)) ==> redis.key == None
      ensures old(redis.Free(now)) && !OpenForAi(old(db.store).conv) ==>
                out == NotAiState && db.store == old(db.store) && queue == old(queue)
      ensures old(redis.Free(now)) && OpenForAi(old(db.store).conv) ==>
                && |queue| >= |old(queue)| && queue[..|old(queue)|] == old(queue)
                && Handled(old(db.store).conv, e, now, inputs, id, delay, others, db.store, queue[|old(queue)|..], out)
    {
      var acquired := redis.SetNx(now, LOCK_TTL);
      if !acquired { return LockHeld; }
      out := RunAiRequest(e, now, inputs, id, delay, others);
      redis.Delete();
    }

    method RunAiRequest(e: ExecId, now: int, inputs: Inputs, id: nat, delay: nat, others: Others) returns (out: Outcome)
      requires OthersFit(e, inputs, db.store, others)
      modifies this`queue, db
      ensures !OpenForAi(old(db.store).conv) ==> out == NotAiState && db.store == old(db.store) && queue == old(queue)
      ensures OpenForAi(old(db.store).conv) ==>
                && |queue| >= |old(queue)| && queue[..|old(queue)|] == old(queue)
                && Handled(old(db.store).conv, e, now, inputs, id, delay, others, db.store, queue[|old(queue)|..], out)
    {
      var session := new AiOrchestrator(db);
      GuardsExactly(session.conv);
      if !session.conv.aiEnabled || session.conv.state in {HumanAssigned, AiPaused, Closed} { return NotAiState; }
      db.Others(others.atDecision);
      var r := session.ProcessInbound(inputs, e, id);
      match r
      case Blocked => return KillSwitch;
      case Lost(_) => return Raised;
      case ProviderFailed(retryable) =>
        if retryable && e.attempt < |RETRY_DELAYS| {
          var countdown := RETRY_DELAYS[e.attempt];
          queue := queue + [RetryRequest(NextAttempt(e), now + countdown)];
          return WillRetry(countdown);
        }
        FallbackLogsOnce(e, inputs, old(db.store), others);
        db.Others(others.atFallbackRead);
        var fallback := new AiOrchestrator(db);
        var handoff := fallback.TakeOver(others.atFallbackWrite);
        return if handoff.HandoffConflict? then Raised else FellBack(handoff.HandedOff?, fallback.conv.state);
      case Proposed(action, message) =>
        if action == AutoSend && message.Some? {
          queue := queue + [SendReply(message.value, now + delay)];
        }
        return Decided(action);
    }

    /** The delayed sender: it loads the conversation, then the message, with others committing in between, and dispatches
        exactly when what it read lets it through. */
    method SendAiReply(message: nat, between: Store) returns (sent: bool)
      modifies this`dispatched, db
      ensures sent <==>
                && message in between.messages
                && old(db.store).conv.aiEnabled && old(db.store).conv.state in {New, AiActive}
                && between.messages[message].status == Queued
      ensures dispatched == old(dispatched) + (if sent then [message] else []) && db.store == between
    {
      var conv := db.store.conv;
      db.Others(between);
      var messages := db.store.messages;
      if message !in messages { return false; }
      GuardsExactly(conv);
      if !conv.aiEnabled || conv.state in {HumanAssigned, AiPaused, AwaitingApproval, Closed} { return false; }
      if messages[message].status != Queued { return false; }
      dispatched := dispatched + [message];
      return true;
    }
  }

  // ------------------------------------------------------------ what the contract of a request gives

  /** How a request that passed the guard ends: a committed decision queues the delayed sender of its message exactly when
      it is an auto-send; a failure that may be retried and is not the fourth is retried after 10, 30 or 90 seconds; any
      other failure puts a person in charge with AI off, unless one already is, the conversation is over, or somebody
      changed its state under the fallback. */
  lemma RequestEndsExactly(snap: Conv, e: ExecId, now: int, inputs: Inputs, id: nat, delay: nat, others: Others,
                           after: Store, jobs: seq<Job>, out: Outcome)
    requires Handled(snap, e, now, inputs, id, delay, others, after, jobs, out)
    requires !KillBlocked(inputs.settings, inputs.phone) && inputs.hasContact
    ensures match Cascade(inputs.bulk, inputs.second)
            case Replied(_) =>
              (match Process(others.atDecision, snap.state, inputs, e, id)
               case RolledBack(_) => out == Raised && jobs == [] && after == others.atDecision
               case Committed(store, _) =>
                 && out == Decided(PlanOf(inputs).action) && after == store
                 && jobs == if PlanOf(inputs).action == AutoSend then [SendReply(id, now + delay)] else [])
            case Failed(retryable) =>
              if retryable && e.attempt < 3 then
                var countdown := if e.attempt == 0 then 10 else if e.attempt == 1 then 30 else 90;
                && out == WillRetry(countdown) && jobs == [RetryRequest(ExecId(e.chain, e.attempt + 1), now + countdown)]
                && after.conv == others.atDecision.conv
              else
                var read, found := others.atFallbackRead.conv.state, others.atFallbackWrite.conv;
                && jobs == []
                && (read in {HumanAssigned, Closed} ==> out == FellBack(false, read) && after.conv == found)
                && (read !in {HumanAssigned, Closed} && found.state == read ==>
                      out == FellBack(true, read) && after.conv == Conv(HumanAssigned, false))
                && (read !in {HumanAssigned, Closed} && found.state != read ==> out == Raised && after.conv == found)
  {
    FallbackHandsOff(others.atFallbackWrite, others.atFallbackRead.conv.state);
    if Cascade(inputs.bulk, inputs.second).Replied? && Process(others.atDecision, snap.state, inputs, e, id).Committed? {
      DecisionExactly(others.atDecision, snap.state, inputs, e, id);
    }
  }

  /** A request queues at most one task: the sender of the message its decision committed as QUEUED, or its own retry. */
  lemma QueuesAtMostOneJob(snap: Conv, e: ExecId, now: int, inputs: Inputs, id: nat, delay: nat, others: Others,
                           after: Store, jobs: seq<Job>, out: Outcome)
    requires Handled(snap, e, now, inputs, id, delay, others, after, jobs, out)
    ensures |jobs| <= 1
    ensures jobs != [] && jobs[0].SendReply? ==>
              && out == Decided(AutoSend) && jobs[0].message in after.messages
              && after.messages[jobs[0].message].status == Queued && after.conv == others.atDecision.conv
    ensures jobs != [] && jobs[0].RetryRequest? ==> e.attempt < 3 && jobs[0].exec.attempt == e.attempt + 1 && out.WillRetry?
    ensures out.WillRetry? <==> jobs != [] && jobs[0].RetryRequest?
  {
  }

  /** An AI request never switches AI on, and moves the state only along an arc from the state others left. */
  lemma RequestMovesLegally(snap: Conv, e: ExecId, now: int, inputs: Inputs, id: nat, delay: nat, others: Others,
                            after: Store, jobs: seq<Job>, out: Outcome)
    requires Handled(snap, e, now, inputs, id, delay, others, after, jobs, out)
    ensures var before := if Exhausted(e, inputs) then others.atFallbackWrite else others.atDecision;
            && (after.conv.aiEnabled ==> before.conv.aiEnabled)
            && (after.conv.state == before.conv.state || CanTransition(before.conv.state, after.conv.state))
  {
  }

  // ------------------------------------------------------------ the imperative code and the protocol

  /** Up to the provider's answer a request does what the protocol's Think step does: same rows, same outcome, and a
      queued sender exactly where the protocol is about to enqueue one. */
  lemma TaskIsThink(s: System, e: ExecId, inputs: Inputs, id: nat, delay: nat, others: Others,
                    after: Store, jobs: seq<Job>, out: Outcome)
    requires Enabled(s, Think(e, inputs, id, delay)) && others.atDecision == s.store
    requires Handled(s.execs[e].pc.snap, e, s.clock, inputs, id, delay, others, after, jobs, out)
    requires KillBlocked(inputs.settings, inputs.phone) || !inputs.hasContact || Cascade(inputs.bulk, inputs.second).Replied?
    ensures var t := Do(s, Think(e, inputs, id, delay));
            && t.store == after
            && t.execs[e].pc == (if jobs == [] then Releasing(out) else Enqueueing(jobs[0].message, delay))
            && (jobs != [] ==>
                  && Enabled(t, Enqueue(e))
                  && Do(t, Enqueue(e)).senders[e] == Sender(jobs[0].message, Due(jobs[0].eta))
                  && Do(t, Enqueue(e)).execs[e].pc == Releasing(out))
  {
  }

  /** A retried failure is the protocol's Think and Retry: the error event, the countdown and the next attempt. */
  lemma TaskIsRetry(s: System, e: ExecId, inputs: Inputs, id: nat, delay: nat, others: Others,
                    after: Store, jobs: seq<Job>, out: Outcome)
    requires Enabled(s, Think(e, inputs, id, delay)) && others.atDecision == s.store && NextAttempt(e) !in s.execs
    requires Handled(s.execs[e].pc.snap, e, s.clock, inputs, id, delay, others, after, jobs, out)
    requires out.WillRetry?
    ensures var t := Do(s, Think(e, inputs, id, delay));
            && t.store == after
            && Enabled(t, Retry(e))
            && Do(t, Retry(e)).store == after
            && Do(t, Retry(e)).execs[e].pc == Releasing(out)
            && jobs == [RetryRequest(NextAttempt(e), Do(t, Retry(e)).execs[NextAttempt(e)].pc.eta)]
  {
  }

  /** Any other failure is the protocol's Think, Fallback and Handover, with whatever others do before each (u and v are
      what the protocol has become by then): the same rows and outcome, and one error event for the failed call. */
  lemma TaskIsFallback(s: System, e: ExecId, inputs: Inputs, id: nat, delay: nat, others: Others, u: System, v: System,
                       after: Store, jobs: seq<Job>, out: Outcome)
    requires Enabled(s, Think(e, inputs, id, delay)) && others.atDecision == s.store && Exhausted(e, inputs)
    requires Handled(s.execs[e].pc.snap, e, s.clock, inputs, id, delay, others, after, jobs, out)
    requires u.store == others.atFallbackRead
    requires e in u.execs && u.execs[e] == Do(s, Think(e, inputs, id, delay)).execs[e]
    requires v.store == others.atFallbackWrite
    requires e in v.execs && v.execs[e] == u.execs[e].(pc := Assigning(u.store.conv, Latest(u)))
    ensures Do(s, Think(e, inputs, id, delay)).store == WithError(s.store, e)
    ensures Enabled(u, Fallback(e)) && Do(u, Fallback(e)).execs[e] == v.execs[e]
    ensures Enabled(v, Handover(e)) && Do(v, Handover(e)).store == after && Do(v, Handover(e)).execs[e].pc == Releasing(out)
    ensures LogsOneError(e, s.store, after)
  {
    assert u.execs[e].pc.CallFailed? && !CanRetry(u, e);
  }

  /** The sender is the protocol's SendRead, SendCheck and SendDispatch, with others in between (u). */
  lemma TaskIsSend(s: System, e: ExecId, u: System)
    requires Enabled(s, SendRead(e)) && e in u.senders && u.senders[e] == Do(s, SendRead(e)).senders[e]
    requires s.senders[e].message in u.store.messages
    ensures var message := s.senders[e].message; var t := Do(u, SendCheck(e));
            var sent := !NotSendable(s.store.conv) && u.store.messages[message].status == Queued;
            && Enabled(u, SendCheck(e))
            && (!sent ==> t.senders[e].pc == Finished(false) && t.dispatched == u.dispatched)
            && (sent ==> Enabled(t, SendDispatch(e))
                         && |Do(t, SendDispatch(e)).dispatched| == |u.dispatched| + 1
                         && Do(t, SendDispatch(e)).dispatched[|u.dispatched|].message == message)
  {
  }

  // ------------------------------------------------------------ unreplied messages

  datatype Line = Line(inbound: bool, content: string, at: int)

  /** The latest inbound line (the first found among equally late ones), unless an outbound line is later. */
  method FindUnreplied(lines: seq<Line>) returns (r: Option<string>)
    ensures r.Some? <==> exists i :: 0 <= i < |lines| && Unanswered(lines, i)
    ensures r.Some? ==> exists i :: 0 <= i < |lines| && Unanswered(lines, i) && lines[i].content == r.value
                                    && forall j :: 0 <= j < |lines| && lines[j].inbound ==> lines[j].at <= lines[i].at
  {
    var last := -1;
    var i := 0;
    while i < |lines|
      invariant 0 <= i <= |lines| && -1 <= last < i
      invariant last == -1 ==> forall j :: 0 <= j < i ==> !lines[j].inbound
      invariant last >= 0 ==> lines[last].inbound && forall j :: 0 <= j < i && lines[j].inbound ==> lines[j].at <= lines[last].at
    {
      if lines[i].inbound && (last < 0 || lines[last].at < lines[i].at) { last := i; }
      i := i + 1;
    }
    if last < 0 { return None; }
    var replies := 0;
    i := 0;
    while i < |lines|
      invariant 0 <= i <= |lines| && replies >= 0
      invariant replies == 0 <==> forall j :: 0 <= j < i && !lines[j].inbound ==> lines[j].at <= lines[last].at
    {
      if !lines[i].inbound && lines[i].at > lines[last].at { replies := replies + 1; }
      i := i + 1;
    }
    if replies == 0 {
      assert Unanswered(lines, last);
      return Some(lines[last].content);
    }
    forall k | 0 <= k < |lines| ensures !Unanswered(lines, k) {
      var j :| 0 <= j < |lines| && !lines[j].inbound && lines[j].at > lines[last].at;
      if lines[k].inbound { assert lines[k].at <= lines[last].at < lines[j].at; }
    }
    return None;
  }

  predicate Unanswered(lines: seq<Line>, i: int)
    requires 0 <= i < |lines|
  {
    lines[i].inbound && forall j :: 0 <= j < |lines| && !lines[j].inbound ==> lines[j].at <= lines[i].at
  }
}
