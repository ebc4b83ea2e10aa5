/** The AI reply protocol of one conversation as a state machine: request executions under a lock with expiry,
    delayed senders behind a guard, and people, all interleaved step by step. */
module AiProtocol {
  import opened StateMachine
  import opened DecisionEngine
  import opened Wrappers

  const LOCK_TTL: int := 180

  // Countdowns before the second, third and fourth execution of a request.
  const RETRY_DELAYS: seq<nat> := [10, 30, 90]

  /** How a request execution ended. */
  datatype Outcome =
    | LockHeld
    | NotAiState
    | KillSwitch
    | Decided(action: Action)
    | WillRetry(countdown: nat)
    | FellBack(handedOff: bool, read: State)
    | Raised

  /** Where an execution is. A snapshot comes with its position in the conversation's history. */
  datatype Pc =
    | Waiting(eta: int)
    | Locked
    | Thinking(snap: Conv, at: nat)
    | CallFailed(retryable: bool)
    | Assigning(snap: Conv, at: nat)
    | Enqueueing(message: nat, delay: nat)
    | Releasing(out: Outcome)
    | Done(out: Outcome)
    | Crashed

  /** errored and retried record that the execution committed an error event and that it re-queued itself. */
  datatype Exec = Exec(pc: Pc, since: int, errored: bool, retried: Option<nat>)

  datatype SendPc =
    | Due(eta: int)
    | GuardRead(conv: Conv, at: nat)
    | GuardPassed(conv: Conv, at: nat, status: Status)
    | Finished(dispatched: bool)

  datatype Sender = Sender(message: nat, pc: SendPc)

  datatype Kind = Pause | Resume | Assign | Approve | Reject | Close | Force | Bulk | FirstInbound

  /** A person's (or the inbound webhook's) request, built from the state it read. */
  datatype Request = Request(kind: Kind, from: State, to: State)

  /** A worker, a person's request with the state it first read, or nobody for the value the run starts with. */
  datatype Author = Worker(exec: ExecId) | Person(kind: Kind, from: State) | Nobody

  /** A value the conversation row has had, and who committed it. */
  datatype Entry = Entry(conv: Conv, author: Author)

  /** An execution's committed decision: what it read, what the row was and became, and the message it wrote. */
  datatype Commit = Commit(inputs: Inputs, snap: Conv, before: Conv, after: Conv, message: Option<nat>)

  /** A message handed to the dispatcher, with what its sender's guard had read. */
  datatype Dispatch = Dispatch(exec: ExecId, message: nat, conv: Conv, at: nat, status: Status)

  datatype System = System(
    clock: int,
    lockUntil: int,
    lastAcquire: int,
    execs: map<ExecId, Exec>,
    store: Store,
    history: seq<Entry>,
    commits: map<ExecId, Commit>,
    senders: map<ExecId, Sender>,
    requests: map<nat, Request>,
    dispatched: seq<Dispatch>)

  datatype Step =
    | Tick(to: int)
    | Arrive(chain: nat)
    | Acquire(e: ExecId)
    | Guard(e: ExecId)
    | Think(e: ExecId, inputs: Inputs, id: nat, delay: nat)
    | Enqueue(e: ExecId)
    | Retry(e: ExecId)
    | Fallback(e: ExecId)
    | Handover(e: ExecId)
    | Release(e: ExecId)
    | Fail(e: ExecId)
    | Crash(e: ExecId)
    | SendRead(e: ExecId)
    | SendCheck(e: ExecId)
    | SendDispatch(e: ExecId)
    | PersonReads(h: nat, request: Request)
    | PersonCommits(h: nat, promoted: Option<nat>)
    | MessageChanges(id: nat, status: Status)

  function Initial(clock: int, conv: Conv): System {
    System(clock, clock, clock - LOCK_TTL, map[],
           Store(conv, map[], [], [], false), [Entry(conv, Nobody)], map[], map[], map[], [])
  }

  // ------------------------------------------------------------ guards

  /** The request task's guard: AI off, or a person is in charge, or the conversation is over. */
  predicate NotForAi(c: Conv) {
    !c.aiEnabled || c.state in {HumanAssigned, AiPaused, Closed}
  }

  /** The sender's guard additionally stops while an approval is pending. */
  predicate NotSendable(c: Conv) {
    !c.aiEnabled || c.state in {HumanAssigned, AiPaused, AwaitingApproval, Closed}
  }

  /** The states from which the AI may answer, with AI on. */
  predicate OpenForAi(c: Conv) { c.aiEnabled && c.state in {New, AiActive, AwaitingApproval} }

  /** Each guard lets through exactly the states it does not list: the sender's does not wait for an approval. */
  lemma GuardsExactly(c: Conv)
    ensures NotForAi(c) <==> !OpenForAi(c)
    ensures NotSendable(c) <==> !(c.aiEnabled && c.state in {New, AiActive})
  {
    match c.state
    case New =>
    case AiActive =>
    case AwaitingApproval =>
    case HumanAssigned =>
    case AiPaused =>
    case Closed =>
  }

  predicate Holding(pc: Pc) {
    pc.Locked? || pc.Thinking? || pc.CallFailed? || pc.Assigning? || pc.Enqueueing? || pc.Releasing?
  }

  /** The arcs each operation asks for. Closing does not consult the table, so it may find CLOSED already. */
  predicate Permitted(r: Request, read: Conv) {
    r.from == read.state &&
    match r.kind
    case Pause => r.from == AiActive && r.to == AiPaused
    case Resume => r.from == AiPaused && r.to == AiActive
    case Assign => r.to == HumanAssigned && CanTransition(r.from, r.to)
    case Approve => r.from == AwaitingApproval && r.to == AiActive
    case Reject => r.from == AwaitingApproval && r.to == HumanAssigned
    case Close => r.to == Closed
    case Force => CanTransition(r.from, r.to)
    case Bulk => CanTransition(r.from, r.to)
    case FirstInbound => r.from == New && r.to == if read.aiEnabled then AiActive else HumanAssigned
  }

  function NextAttempt(e: ExecId): ExecId { ExecId(e.chain, e.attempt + 1) }

  predicate CanRetry(s: System, e: ExecId)
    requires e in s.execs && s.execs[e].pc.CallFailed?
  {
    s.execs[e].pc.retryable && e.attempt < |RETRY_DELAYS|
  }

  /** An approval promotes a waiting draft when there is one; nothing else touches messages. */
  predicate PromotionFits(s: System, r: Request, promoted: Option<nat>) {
    match promoted
    case Some(id) => r.kind == Approve && id in s.store.messages && s.store.messages[id].status == Draft
    case None => r.kind == Approve ==> forall id :: id in s.store.messages ==> s.store.messages[id].status != Draft
  }

  predicate Enabled(s: System, step: Step) {
    match step
    case Tick(to) => to >= s.clock
    case Arrive(chain) => ExecId(chain, 0) !in s.execs
    case Acquire(e) => e in s.execs && s.execs[e].pc.Waiting? && s.clock >= s.execs[e].pc.eta
    case Guard(e) => e in s.execs && s.execs[e].pc.Locked?
    case Think(e, _, id, _) => e in s.execs && s.execs[e].pc.Thinking? && id !in s.store.messages
    case Enqueue(e) => e in s.execs && s.execs[e].pc.Enqueueing?
    case Retry(e) =>
      e in s.execs && s.execs[e].pc.CallFailed? && CanRetry(s, e) && NextAttempt(e) !in s.execs
    case Fallback(e) => e in s.execs && s.execs[e].pc.CallFailed? && !CanRetry(s, e)
    case Handover(e) => e in s.execs && s.execs[e].pc.Assigning?
    case Release(e) => e in s.execs && s.execs[e].pc.Releasing?
    case Fail(e) => e in s.execs && Holding(s.execs[e].pc) && !s.execs[e].pc.Releasing?
    case Crash(e) => e in s.execs && Holding(s.execs[e].pc)
    case SendRead(e) => e in s.senders && s.senders[e].pc.Due? && s.clock >= s.senders[e].pc.eta
    case SendCheck(e) => e in s.senders && s.senders[e].pc.GuardRead? && s.senders[e].message in s.store.messages
    case SendDispatch(e) => e in s.senders && s.senders[e].pc.GuardPassed?
    case PersonReads(h, r) => h !in s.requests && Permitted(r, s.store.conv)
    case PersonCommits(h, promoted) => h in s.requests && PromotionFits(s, s.requests[h], promoted)
    case MessageChanges(id, _) => id in s.store.messages
  }

  // ------------------------------------------------------------ steps

  function At(s: System, e: ExecId, pc: Pc): System
    requires e in s.execs
  {
    s.(execs := s.execs[e := s.execs[e].(pc := pc)])
  }

  /** Commits a new value of the conversation row. */
  function WithConv(s: System, store: Store, author: Author): System {
    s.(store := store, history := s.history + [Entry(store.conv, author)])
  }

  function DoAcquire(s: System, e: ExecId): System
    requires e in s.execs
  {
    if s.clock < s.lockUntil then At(s, e, Done(LockHeld))
    else s.(lockUntil := s.clock + LOCK_TTL, lastAcquire := s.clock,
            execs := s.execs[e := s.execs[e].(pc := Locked, since := s.clock)])
  }

  function Latest(s: System): nat { if s.history == [] then 0 else |s.history| - 1 }

  function DoGuard(s: System, e: ExecId): System
    requires e in s.execs
  {
    At(s, e, if NotForAi(s.store.conv) then Releasing(NotAiState) else Thinking(s.store.conv, Latest(s)))
  }

  /** Kill switch, cascade, decision and commit. A provider failure commits one error event instead; a conversation
      that is gone takes neither event. */
  function DoThink(s: System, e: ExecId, inputs: Inputs, id: nat, delay: nat): System
    requires e in s.execs && s.execs[e].pc.Thinking?
  {
    if KillBlocked(inputs.settings, inputs.phone) then At(s, e, Releasing(KillSwitch))
    else if !inputs.hasContact then At(s, e, Releasing(Raised))
    else
      match Cascade(inputs.bulk, inputs.second)
      case Failed(retryable) =>
        s.(store := s.store.(events := s.store.events + [Event(e, true)]),
           execs := s.execs[e := s.execs[e].(pc := CallFailed(retryable), errored := true)])
      case Replied(_) => DoDecide(s, e, inputs, id, delay)
  }

  function DoDecide(s: System, e: ExecId, inputs: Inputs, id: nat, delay: nat): System
    requires e in s.execs && s.execs[e].pc.Thinking? && Cascade(inputs.bulk, inputs.second).Replied?
  {
    var snap := s.execs[e].pc.snap;
    var plan := PlanOf(inputs);
    match Process(s.store, snap.state, inputs, e, id)
    case RolledBack(_) => At(s, e, Releasing(Raised))
    case Committed(store, message) =>
      var t := WithConv(s, store, Worker(e))
                 .(commits := s.commits[e := Commit(inputs, snap, s.store.conv, store.conv, message)]);
      At(t, e, if plan.action == AutoSend && message.Some? then Enqueueing(message.value, delay)
               else Releasing(Decided(plan.action)))
  }

  function DoEnqueue(s: System, e: ExecId): System
    requires e in s.execs && s.execs[e].pc.Enqueueing?
  {
    var pc := s.execs[e].pc;
    At(s, e, Releasing(Decided(AutoSend)))
      .(senders := s.senders[e := Sender(pc.message, Due(s.clock + pc.delay))])
  }

  function DoRetry(s: System, e: ExecId): System
    requires e in s.execs && s.execs[e].pc.CallFailed? && CanRetry(s, e)
  {
    var d := RETRY_DELAYS[e.attempt];
    s.(execs := s.execs[e := s.execs[e].(pc := Releasing(WillRetry(d)), retried := Some(d))]
                       [NextAttempt(e) := Exec(Waiting(s.clock + d), 0, false, None)])
  }

  function DoHandover(s: System, e: ExecId): System
    requires e in s.execs && s.execs[e].pc.Assigning?
  {
    var read := s.execs[e].pc.snap.state;
    match AssignHuman(s.store, read)
    case NothingToDo => At(s, e, Releasing(FellBack(false, read)))
    case HandoffConflict => At(s, e, Releasing(Raised))
    case HandedOff(store) => At(WithConv(s, store, Worker(e)), e, Releasing(FellBack(true, read)))
  }

  function SendAt(s: System, e: ExecId, pc: SendPc): System
    requires e in s.senders
  {
    s.(senders := s.senders[e := s.senders[e].(pc := pc)])
  }

  function DoSendCheck(s: System, e: ExecId): System
    requires e in s.senders && s.senders[e].pc.GuardRead? && s.senders[e].message in s.store.messages
  {
    var conv, at := s.senders[e].pc.conv, s.senders[e].pc.at;
    var status := s.store.messages[s.senders[e].message].status;
    SendAt(s, e, if NotSendable(conv) || status != Queued then Finished(false) else GuardPassed(conv, at, status))
  }

  function DoSendDispatch(s: System, e: ExecId): System
    requires e in s.senders && s.senders[e].pc.GuardPassed?
  {
    var pc := s.senders[e].pc;
    SendAt(s, e, Finished(true))
      .(dispatched := s.dispatched + [Dispatch(e, s.senders[e].message, pc.conv, pc.at, pc.status)])
  }

  /** A forced hand-back: it checks the table on its first read, then clears the conversation's lock columns, which locks
      the row until the commit, reads the state again and writes over whatever it then finds. */
  predicate HandsBack(kind: Kind, from: State) { kind == Force && from == HumanAssigned }

  /** The state the update expects: the one first read, or for a forced hand-back the one read again. */
  function Expected(c: Conv, r: Request): State { if HandsBack(r.kind, r.from) then c.state else r.from }

  /** A forced hand-back to AI is the one operation that switches AI on. */
  function PersonConv(c: Conv, r: Request): Conv {
    Conv(r.to, c.aiEnabled || (HandsBack(r.kind, r.from) && r.to == AiActive))
  }

  function WithStatus(store: Store, id: nat, status: Status): Store
    requires id in store.messages
  {
    store.(messages := store.messages[id := store.messages[id].(status := status)])
  }

  /** The person's update: zero rows if the state is no longer the expected one. */
  function DoPersonCommits(s: System, h: nat, promoted: Option<nat>): System
    requires h in s.requests && PromotionFits(s, s.requests[h], promoted)
  {
    var r := s.requests[h];
    var t := s.(requests := s.requests - {h});
    if s.store.conv.state != Expected(s.store.conv, r) then t
    else
      var moved := s.store.(conv := PersonConv(s.store.conv, r));
      WithConv(t, if promoted.Some? then WithStatus(moved, promoted.value, Queued) else moved, Person(r.kind, r.from))
  }

  function Do(s: System, step: Step): System
    requires Enabled(s, step)
  {
    match step
    case Tick(to) => s.(clock := to)
    case Arrive(chain) => s.(execs := s.execs[ExecId(chain, 0) := Exec(Waiting(s.clock), 0, false, None)])
    case Acquire(e) => DoAcquire(s, e)
    case Guard(e) => DoGuard(s, e)
    case Think(e, inputs, id, delay) => DoThink(s, e, inputs, id, delay)
    case Enqueue(e) => DoEnqueue(s, e)
    case Retry(e) => DoRetry(s, e)
    case Fallback(e) => At(s, e, Assigning(s.store.conv, Latest(s)))
    case Handover(e) => DoHandover(s, e)
    case Release(e) => At(s, e, Done(s.execs[e].pc.out)).(lockUntil := s.clock)
    case Fail(e) => At(s, e, Releasing(Raised))
    case Crash(e) => At(s, e, Crashed)
    case SendRead(e) => SendAt(s, e, GuardRead(s.store.conv, Latest(s)))
    case SendCheck(e) => DoSendCheck(s, e)
    case SendDispatch(e) => DoSendDispatch(s, e)
    case PersonReads(h, r) => s.(requests := s.requests[h := r])
    case PersonCommits(h, promoted) => DoPersonCommits(s, h, promoted)
    case MessageChanges(id, status) => s.(store := WithStatus(s.store, id, status))
  }

  // ------------------------------------------------------------ frame

  /** The execution whose own code the step runs. */
  predicate ActsOn(step: Step, f: ExecId) {
    match step
    case Acquire(e) => e == f
    case Guard(e) => e == f
    case Think(e, _, _, _) => e == f
    case Enqueue(e) => e == f
    case Retry(e) => e == f
    case Fallback(e) => e == f
    case Handover(e) => e == f
    case Release(e) => e == f
    case Fail(e) => e == f
    case Crash(e) => e == f
    case _ => false
  }

  /** Executions a step does not act on keep their record; a new one starts out waiting. */
  lemma OtherExecs(s: System, step: Step, f: ExecId)
    requires Enabled(s, step) && !ActsOn(step, f)
    ensures var t := Do(s, step);
            && (f in s.execs ==> f in t.execs && t.execs[f] == s.execs[f])
            && (f in t.execs && f !in s.execs ==>
                  t.execs[f].pc.Waiting? && !t.execs[f].errored && t.execs[f].retried.None?)
  {
  }

  /** How the step changes the record of the execution it acts on. */
  predicate ExecMove(s: System, step: Step, f: ExecId, x: Exec, y: Exec) {
    match step
    case Acquire(_) =>
      x.pc.Waiting? && y == if s.clock < s.lockUntil then x.(pc := Done(LockHeld)) else x.(pc := Locked, since := s.clock)
    case Guard(_) =>
      x.pc.Locked? && y == x.(pc := if NotForAi(s.store.conv) then Releasing(NotAiState)
                                    else Thinking(s.store.conv, Latest(s)))
    case Think(_, _, _, _) =>
      && x.pc.Thinking?
      && (|| (y == x.(pc := y.pc) && y.pc.Releasing? && (y.pc.out.KillSwitch? || y.pc.out.Decided? || y.pc.out.Raised?))
          || (y == x.(pc := y.pc) && y.pc.Enqueueing?)
          || (y == x.(pc := y.pc, errored := true) && y.pc.CallFailed?))
    case Enqueue(_) => x.pc.Enqueueing? && y == x.(pc := Releasing(Decided(AutoSend)))
    case Retry(_) =>
      && x.pc.CallFailed? && x.pc.retryable && f.attempt < 3
      && y == x.(pc := Releasing(WillRetry(RETRY_DELAYS[f.attempt])), retried := Some(RETRY_DELAYS[f.attempt]))
    case Fallback(_) => x.pc.CallFailed? && y == x.(pc := Assigning(s.store.conv, Latest(s)))
    case Handover(_) =>
      x.pc.Assigning? && y == x.(pc := y.pc) && y.pc.Releasing? && (y.pc.out.FellBack? || y.pc.out.Raised?)
    case Release(_) => x.pc.Releasing? && y == x.(pc := Done(x.pc.out))
    case Fail(_) => Holding(x.pc) && !x.pc.Releasing? && y == x.(pc := Releasing(Raised))
    case Crash(_) => Holding(x.pc) && y == x.(pc := Crashed)
    case _ => false
  }

  lemma ActingExec(s: System, step: Step, f: ExecId)
    requires Enabled(s, step) && ActsOn(step, f)
    ensures f in s.execs && f in Do(s, step).execs
    ensures ExecMove(s, step, f, s.execs[f], Do(s, step).execs[f])
  {
  }

  /** Only a sender's last step dispatches, and it dispatches its own message with what its guard had read. */
  lemma DispatchedAfter(s: System, step: Step)
    requires Enabled(s, step)
    ensures var t := Do(s, step);
            if step.SendDispatch? then
              && s.senders[step.e].pc.GuardPassed?
              && t.senders[step.e] == Sender(s.senders[step.e].message, Finished(true))
              && t.dispatched == s.dispatched + [Dispatch(step.e, s.senders[step.e].message, s.senders[step.e].pc.conv,
                                                          s.senders[step.e].pc.at, s.senders[step.e].pc.status)]
            else t.dispatched == s.dispatched
  {
    match step
    case Think(_, _, _, _) =>
    case _ =>
  }

  // ------------------------------------------------------------ runs

  predicate Valid(s: System, steps: seq<Step>)
    decreases |steps|
  {
    steps == [] || (Enabled(s, steps[0]) && Valid(Do(s, steps[0]), steps[1..]))
  }

  function Run(s: System, steps: seq<Step>): System
    requires Valid(s, steps)
    decreases |steps|
  {
    if steps == [] then s else Run(Do(s, steps[0]), steps[1..])
  }

  lemma RunCons(s: System, step: Step, rest: seq<Step>)
    requires Enabled(s, step) && Valid(Do(s, step), rest)
    ensures Valid(s, [step] + rest) && Run(s, [step] + rest) == Run(Do(s, step), rest)
  {
  }
}
