/** The retry chain of one request: at most four executions, the countdown ladder, one terminal outcome. */
module ProtocolRetry {
  import opened StateMachine
  import opened DecisionEngine
  import opened AiProtocol
  import ProtocolCommits
  import opened Wrappers

  /** An execution re-queues itself only after a failed call, with the ladder's next countdown, and is followed by
      the next attempt; every later attempt has such a predecessor. */
  predicate LadderedAt(s: System, e: ExecId)
    requires e in s.execs
  {
    var x := s.execs[e];
    && e.attempt <= 3
    && (x.retried.Some? <==> NextAttempt(e) in s.execs)
    && (x.retried.Some? ==>
          && e.attempt < 3 && x.retried == Some(RETRY_DELAYS[e.attempt]) && x.errored
          && (x.pc == Releasing(WillRetry(RETRY_DELAYS[e.attempt])) || x.pc == Done(WillRetry(RETRY_DELAYS[e.attempt]))
              || x.pc.Crashed?))
    && (e.attempt > 0 ==> ExecId(e.chain, e.attempt - 1) in s.execs)
  }

  predicate Laddered(s: System) {
    forall e :: e in s.execs ==> LadderedAt(s, e)
  }

  /** An execution that announces a retry has made one; one whose call failed and was not retried is being, or has
      been, handed to a person, or has crashed; no error event comes before the call. */
  predicate Fits(x: Exec) {
    && ((x.pc.Releasing? || x.pc.Done?) && x.pc.out.WillRetry? ==> x.retried.Some?)
    && (x.pc.CallFailed? || x.pc.Assigning? ==> x.errored && x.retried.None?)
    && ((x.pc.Releasing? || x.pc.Done?) && x.errored ==> x.pc.out.WillRetry? || x.pc.out.FellBack? || x.pc.out.Raised?)
    && (x.pc.Waiting? || x.pc.Locked? || x.pc.Thinking? || x.pc.Enqueueing? ==> !x.errored && x.retried.None?)
  }

  predicate OutcomesFit(s: System) {
    forall e :: e in s.execs ==> Fits(s.execs[e])
  }

  predicate Inv(s: System) { Laddered(s) && OutcomesFit(s) }

  /** Which executions a step creates. */
  lemma NewExecs(s: System, step: Step, f: ExecId)
    requires Enabled(s, step)
    ensures f in Do(s, step).execs <==>
              f in s.execs || (step.Arrive? && f == ExecId(step.chain, 0)) || (step.Retry? && f == NextAttempt(step.e))
  {
    match step
    case Think(e, inputs, id, delay) =>
    case _ =>
  }

  lemma LadderStep(s: System, step: Step, f: ExecId)
    requires Enabled(s, step) && Inv(s) && f in Do(s, step).execs
    ensures LadderedAt(Do(s, step), f)
  {
    NewExecs(s, step, f);
    NewExecs(s, step, NextAttempt(f));
    if f.attempt > 0 { NewExecs(s, step, ExecId(f.chain, f.attempt - 1)); }
    if f in s.execs { assert LadderedAt(s, f); }
    if NextAttempt(f) in s.execs { assert LadderedAt(s, NextAttempt(f)); }
    if ActsOn(step, f) {
      ActingExec(s, step, f);
      ActingLadder(s, step, f, Do(s, step));
    } else {
      OtherExecs(s, step, f);
    }
  }

  lemma ActingLadder(s: System, step: Step, f: ExecId, t: System)
    requires Inv(s) && f in s.execs && f in t.execs && ExecMove(s, step, f, s.execs[f], t.execs[f])
    requires LadderedAt(s, f)
    requires NextAttempt(f) in t.execs <==> NextAttempt(f) in s.execs || step.Retry?
    requires f.attempt > 0 && ExecId(f.chain, f.attempt - 1) in s.execs ==> ExecId(f.chain, f.attempt - 1) in t.execs
    ensures LadderedAt(t, f)
  {
    assert Fits(s.execs[f]);
  }

  lemma FitsKept(s: System, step: Step, f: ExecId, x: Exec, y: Exec)
    requires ExecMove(s, step, f, x, y) && Fits(x)
    requires x.pc.Releasing? ==> (x.pc.out.WillRetry? <==> x.retried.Some?)
    ensures Fits(y)
  {
  }

  lemma FitStep(s: System, step: Step, f: ExecId)
    requires Enabled(s, step) && Inv(s) && f in Do(s, step).execs
    ensures Fits(Do(s, step).execs[f])
  {
    if ActsOn(step, f) {
      ActingExec(s, step, f);
      assert LadderedAt(s, f);
      FitsKept(s, step, f, s.execs[f], Do(s, step).execs[f]);
    } else {
      OtherExecs(s, step, f);
    }
  }

  lemma StepKeepsInv(s: System, step: Step)
    requires Enabled(s, step) && Inv(s)
    ensures Inv(Do(s, step))
  {
    var t := Do(s, step);
    forall f | f in t.execs ensures LadderedAt(t, f) && Fits(t.execs[f]) {
      LadderStep(s, step, f);
      FitStep(s, step, f);
    }
  }

  /** Runs keep the invariant, and no execution is ever forgotten. */
  lemma {:induction false} RunKeepsInv(s: System, steps: seq<Step>)
    requires Valid(s, steps) && Inv(s)
    ensures Inv(Run(s, steps)) && s.execs.Keys <= Run(s, steps).execs.Keys
    decreases |steps|
  {
    if steps != [] {
      StepKeepsInv(s, steps[0]);
      forall e | e in s.execs ensures e in Do(s, steps[0]).execs { NewExecs(s, steps[0], e); }
      RunKeepsInv(Do(s, steps[0]), steps[1..]);
    }
  }

  /** The countdowns a request's retries have used, oldest first. */
  function Countdowns(s: System, chain: nat, attempt: nat): seq<nat>
    decreases 4 - attempt
  {
    var e := ExecId(chain, attempt);
    if attempt > 3 || e !in s.execs || s.execs[e].retried.None? then []
    else [s.execs[e].retried.value] + Countdowns(s, chain, attempt + 1)
  }

  lemma {:induction false} CountdownsFollowLadder(s: System, chain: nat, attempt: nat)
    requires Inv(s) && attempt <= 3
    ensures Countdowns(s, chain, attempt) <= RETRY_DELAYS[attempt..]
    decreases 4 - attempt
  {
    var e := ExecId(chain, attempt);
    if e in s.execs && s.execs[e].retried.Some? {
      assert LadderedAt(s, e);
      if attempt < 3 {
        CountdownsFollowLadder(s, chain, attempt + 1);
        assert RETRY_DELAYS[attempt..] == [RETRY_DELAYS[attempt]] + RETRY_DELAYS[attempt + 1..];
      }
    }
  }

  /** An execution that is over for good. */
  predicate Ended(s: System, e: ExecId) {
    e in s.execs && s.execs[e].pc.Done? && !s.execs[e].pc.out.WillRetry?
  }

  /** Whatever the provider does, a request makes at most four attempts, with countdowns that are a prefix of
      10, 30, 90, and at most one of its executions ends it: the latest one. */
  lemma RetryChain(clock: int, conv: Conv, steps: seq<Step>, chain: nat)
    requires Valid(Initial(clock, conv), steps)
    ensures var s := Run(Initial(clock, conv), steps);
            && (forall e :: e in s.execs && e.chain == chain ==> e.attempt < 4)
            && Countdowns(s, chain, 0) <= [10, 30, 90]
            && (forall e, f :: Ended(s, e) && f in s.execs && f.chain == e.chain ==> f.attempt <= e.attempt)
  {
    RunKeepsInv(Initial(clock, conv), steps);
    var s := Run(Initial(clock, conv), steps);
    CountdownsFollowLadder(s, chain, 0);
    assert RETRY_DELAYS[0..] == RETRY_DELAYS;
    forall e, f | Ended(s, e) && f in s.execs && f.chain == e.chain ensures f.attempt <= e.attempt {
      assert LadderedAt(s, e);
      if f.attempt > e.attempt { Descend(s, f, e.attempt + 1); }
    }
  }

  /** An execution that takes no further step. */
  predicate Over(s: System, e: ExecId) {
    e in s.execs && (s.execs[e].pc.Done? || s.execs[e].pc.Crashed?)
  }

  /** The chain's latest execution. */
  predicate IsLatest(s: System, e: ExecId) { e in s.execs && NextAttempt(e) !in s.execs }

  lemma {:induction false} FindLatest(s: System, e: ExecId) returns (last: ExecId)
    requires Inv(s) && e in s.execs
    ensures last.chain == e.chain && last.attempt >= e.attempt && IsLatest(s, last)
    decreases 4 - e.attempt
  {
    assert LadderedAt(s, e);
    last := e;
    if NextAttempt(e) in s.execs {
      last := FindLatest(s, NextAttempt(e));
    }
  }

  /** Once all its executions are over, a request has ended in one outcome: that of its latest execution, all earlier
      ones having re-queued themselves; only a crash leaves it without an answer. */
  lemma OneTerminalOutcome(clock: int, conv: Conv, steps: seq<Step>, e: ExecId) returns (last: ExecId)
    requires Valid(Initial(clock, conv), steps) && e in Run(Initial(clock, conv), steps).execs
    requires forall f :: f in Run(Initial(clock, conv), steps).execs && f.chain == e.chain ==>
               Over(Run(Initial(clock, conv), steps), f)
    ensures var s := Run(Initial(clock, conv), steps);
            && last.chain == e.chain && last in s.execs
            && (Ended(s, last) || s.execs[last].pc.Crashed?)
            && forall f :: f in s.execs && f.chain == e.chain && f != last ==>
                 f.attempt < last.attempt && f.attempt < 3 && s.execs[f].retried == Some(RETRY_DELAYS[f.attempt])
  {
    RunKeepsInv(Initial(clock, conv), steps);
    var s := Run(Initial(clock, conv), steps);
    last := FindLatest(s, e);
    assert LadderedAt(s, last) && Fits(s.execs[last]) && Over(s, last);
    forall f | f in s.execs && f.chain == e.chain && f != last
      ensures f.attempt < last.attempt && f.attempt < 3 && s.execs[f].retried == Some(RETRY_DELAYS[f.attempt])
    {
      assert LadderedAt(s, f);
      if f.attempt > last.attempt {
        Descend(s, f, last.attempt + 1);
      } else {
        assert f.attempt != last.attempt;
        Descend(s, last, f.attempt + 1);
        assert NextAttempt(f) == ExecId(f.chain, f.attempt + 1);
      }
    }
  }

  /** An execution that is not over can always go on, at once or when its countdown has passed; so runs stop only
      when every request has its outcome. */
  lemma NeverStuck(s: System, e: ExecId, inputs: Inputs, id: nat)
    requires Inv(s) && e in s.execs && !Over(s, e) && id !in s.store.messages
    ensures exists step ::
              && ActsOn(step, e)
              && if s.execs[e].pc.Waiting? && s.clock < s.execs[e].pc.eta
                 then Enabled(s, Tick(s.execs[e].pc.eta)) && Enabled(Do(s, Tick(s.execs[e].pc.eta)), step)
                 else Enabled(s, step)
  {
    assert LadderedAt(s, e) && Fits(s.execs[e]);
    var step :=
      match s.execs[e].pc
      case Waiting(_) => Acquire(e)
      case Locked => Guard(e)
      case Thinking(_, _) => Think(e, inputs, id, 0)
      case CallFailed(_) => if CanRetry(s, e) then Retry(e) else Fallback(e)
      case Assigning(_, _) => Handover(e)
      case Enqueueing(_, _) => Enqueue(e)
      case _ => Release(e);
    assert ActsOn(step, e);
  }

  /** Attempts of a chain are numbered without gaps. */
  lemma {:induction false} Descend(s: System, f: ExecId, attempt: nat)
    requires Inv(s) && f in s.execs && attempt <= f.attempt
    ensures ExecId(f.chain, attempt) in s.execs
    decreases f.attempt
  {
    assert LadderedAt(s, f);
    if attempt < f.attempt {
      Descend(s, ExecId(f.chain, f.attempt - 1), attempt);
    }
  }

  /** Each failed call committed exactly one error event, and every finished execution whose call failed either
      re-queued itself, reached the human fallback, or ended in an exception. */
  lemma FailuresAreAccountedFor(clock: int, conv: Conv, steps: seq<Step>, e: ExecId)
    requires Valid(Initial(clock, conv), steps) && e in Run(Initial(clock, conv), steps).execs
    ensures var s := Run(Initial(clock, conv), steps);
            && ProtocolCommits.Count(s.store.events, Event(e, true)) == (if s.execs[e].errored then 1 else 0)
            && (s.execs[e].errored ==> e !in s.commits)
            && (s.execs[e].errored && s.execs[e].pc.Done? ==>
                  s.execs[e].pc.out.WillRetry? || s.execs[e].pc.out.FellBack? || s.execs[e].pc.out.Raised?)
            && (s.execs[e].errored && e.attempt == 3 && s.execs[e].pc.Done? ==> !s.execs[e].pc.out.WillRetry?)
  {
    RunKeepsInv(Initial(clock, conv), steps);
    ProtocolCommits.RunKeepsInv(Initial(clock, conv), steps);
    var s := Run(Initial(clock, conv), steps);
    assert LadderedAt(s, e);
  }

  /** The fallback step itself: from a state that still has the hand-off arc and has not changed since it was read,
      the conversation becomes HUMAN_ASSIGNED with AI off. */
  lemma ExhaustionHandsOff(s: System, e: ExecId)
    requires Enabled(s, Handover(e))
    ensures var snap := s.execs[e].pc.snap; var t := Do(s, Handover(e));
            && (s.store.conv.state == snap.state && CanTransition(snap.state, HumanAssigned) ==>
                  t.store.conv == Conv(HumanAssigned, false) && t.execs[e].pc == Releasing(FellBack(true, snap.state)))
            && (s.store.conv.state != snap.state && CanTransition(snap.state, HumanAssigned) ==>
                  t.store == s.store && t.execs[e].pc == Releasing(Raised))
            && (!CanTransition(snap.state, HumanAssigned) ==>
                  t.store == s.store && t.execs[e].pc == Releasing(FellBack(false, snap.state)))
  {
    FallbackHandsOff(s.store, s.execs[e].pc.snap.state);
    HandoffEdge(s.execs[e].pc.snap.state);
  }

  /** After a failed call exactly one of the two ways on is open: a retry after 10, 30 or 90 seconds when the failure may
      be retried and this was not the fourth attempt, and otherwise the fallback. */
  lemma RetryOrFallback(s: System, e: ExecId)
    requires e in s.execs && s.execs[e].pc.CallFailed? && Inv(s)
    ensures Enabled(s, Retry(e)) <==> s.execs[e].pc.retryable && e.attempt < 3
    ensures Enabled(s, Fallback(e)) <==> !(s.execs[e].pc.retryable && e.attempt < 3)
    ensures Enabled(s, Retry(e)) ==>
              var countdown := if e.attempt == 0 then 10 else if e.attempt == 1 then 30 else 90;
              var next := ExecId(e.chain, e.attempt + 1);
              var t := Do(s, Retry(e));
              && next in t.execs && t.execs[next].pc == Waiting(s.clock + countdown)
              && t.execs[e].pc == Releasing(WillRetry(countdown)) && t.store == s.store
  {
    assert LadderedAt(s, e);
  }

  /** The request's guard lets exactly the conversations through that the AI may answer. */
  lemma GuardLetsThroughIff(s: System, e: ExecId)
    requires Enabled(s, Guard(e))
    ensures var pc := Do(s, Guard(e)).execs[e].pc;
            && (pc.Thinking? <==> s.store.conv.aiEnabled && s.store.conv.state in {New, AiActive, AwaitingApproval})
            && (pc.Thinking? ==> pc.snap == s.store.conv)
            && (!pc.Thinking? ==> pc == Releasing(NotAiState))
  {
    GuardsExactly(s.store.conv);
  }

  // ------------------------------------------------------------ progress

  /** Steps an execution and the retries it may still start can take, at most. */
  function Remaining(attempt: nat): nat
    decreases 4 - attempt
  {
    if attempt > 3 then 0 else 7 + Remaining(attempt + 1)
  }

  function Potential(e: ExecId, pc: Pc): nat {
    match pc
    case Waiting(_) => Remaining(e.attempt)
    case Locked => 6 + Remaining(e.attempt + 1)
    case Thinking(_, _) => 5 + Remaining(e.attempt + 1)
    case CallFailed(_) => 4 + Remaining(e.attempt + 1)
    case Assigning(_, _) => 3
    case Enqueueing(_, _) => 3
    case Releasing(_) => 2
    case Done(_) => 0
    case Crashed => 0
  }

  function ChainPotential(s: System, chain: nat, attempt: nat): nat
    decreases 4 - attempt
  {
    if attempt > 3 then 0
    else
      var e := ExecId(chain, attempt);
      (if e in s.execs then Potential(e, s.execs[e].pc) else 0) + ChainPotential(s, chain, attempt + 1)
  }

  lemma {:induction false} ChainUnchanged(s: System, t: System, chain: nat, attempt: nat)
    requires forall a :: attempt <= a <= 3 ==>
               (ExecId(chain, a) in s.execs <==> ExecId(chain, a) in t.execs)
               && (ExecId(chain, a) in s.execs ==> t.execs[ExecId(chain, a)].pc == s.execs[ExecId(chain, a)].pc)
    ensures ChainPotential(t, chain, attempt) == ChainPotential(s, chain, attempt)
    decreases 4 - attempt
  {
    if attempt <= 3 { ChainUnchanged(s, t, chain, attempt + 1); }
  }

  lemma MoveCosts(s: System, step: Step, e: ExecId, x: Exec, y: Exec)
    requires ExecMove(s, step, e, x, y) && e.attempt <= 3
    ensures Potential(e, y.pc) + (if step.Retry? then Remaining(e.attempt + 1) else 0) < Potential(e, x.pc)
  {
  }

  /** Later attempts of the chain are untouched, except the one a retry starts. */
  lemma LaterAttempts(s: System, step: Step, e: ExecId, from: nat)
    requires Enabled(s, step) && ActsOn(step, e) && from > e.attempt && (step.Retry? ==> from > e.attempt + 1)
    ensures ChainPotential(Do(s, step), e.chain, from) == ChainPotential(s, e.chain, from)
  {
    var t := Do(s, step);
    forall a | from <= a <= 3
      ensures ExecId(e.chain, a) in s.execs <==> ExecId(e.chain, a) in t.execs
      ensures ExecId(e.chain, a) in s.execs ==> t.execs[ExecId(e.chain, a)].pc == s.execs[ExecId(e.chain, a)].pc
    {
      NewExecs(s, step, ExecId(e.chain, a));
      OtherExecs(s, step, ExecId(e.chain, a));
    }
    ChainUnchanged(s, t, e.chain, from);
  }

  lemma OwnCost(s: System, step: Step, e: ExecId)
    requires Enabled(s, step) && Inv(s) && ActsOn(step, e)
    ensures ChainPotential(Do(s, step), e.chain, e.attempt) < ChainPotential(s, e.chain, e.attempt)
  {
    var t := Do(s, step);
    ActingExec(s, step, e);
    assert LadderedAt(s, e);
    MoveCosts(s, step, e, s.execs[e], t.execs[e]);
    if step.Retry? {
      var next := NextAttempt(e);
      NewExecs(s, step, next);
      OtherExecs(s, step, next);
      LaterAttempts(s, step, e, next.attempt + 1);
      UnfoldChain(s, e);
      UnfoldChain(t, e);
      UnfoldChain(s, next);
      UnfoldChain(t, next);
    } else {
      LaterAttempts(s, step, e, e.attempt + 1);
      UnfoldChain(s, e);
      UnfoldChain(t, e);
    }
  }

  lemma UnfoldChain(s: System, e: ExecId)
    requires e.attempt <= 3
    ensures ChainPotential(s, e.chain, e.attempt) ==
            (if e in s.execs then Potential(e, s.execs[e].pc) else 0) + ChainPotential(s, e.chain, e.attempt + 1)
  {
  }

  /** One step of an execution costs its chain at least one unit, a started retry included. */
  lemma {:induction false} ChainDrops(s: System, step: Step, e: ExecId, attempt: nat)
    requires Enabled(s, step) && Inv(s) && ActsOn(step, e) && attempt <= e.attempt <= 3
    ensures ChainPotential(Do(s, step), e.chain, attempt) < ChainPotential(s, e.chain, attempt)
    decreases 4 - attempt
  {
    if attempt < e.attempt {
      var t := Do(s, step);
      var here := ExecId(e.chain, attempt);
      ChainDrops(s, step, e, attempt + 1);
      NewExecs(s, step, here);
      OtherExecs(s, step, here);
      UnfoldChain(s, here);
      UnfoldChain(t, here);
    } else {
      OwnCost(s, step, e);
    }
  }

  /** The step runs code of one of the chain's executions. */
  predicate Serves(step: Step, chain: nat) {
    && (step.Acquire? || step.Guard? || step.Think? || step.Enqueue? || step.Retry? || step.Fallback? || step.Handover?
        || step.Release? || step.Fail? || step.Crash?)
    && step.e.chain == chain
  }

  function ServingSteps(steps: seq<Step>, chain: nat): nat {
    if steps == [] then 0 else (if Serves(steps[0], chain) then 1 else 0) + ServingSteps(steps[1..], chain)
  }

  const MAX_STEPS: nat := 28

  /** What a request may still spend; one that has not arrived has everything left. */
  function Budget(s: System, chain: nat): nat {
    if ExecId(chain, 0) in s.execs then ChainPotential(s, chain, 0) else MAX_STEPS
  }

  lemma ServingStepSpends(s: System, step: Step, e: ExecId)
    requires Enabled(s, step) && Inv(s) && ActsOn(step, e)
    ensures Budget(Do(s, step), e.chain) < Budget(s, e.chain)
  {
    ActingExec(s, step, e);
    assert LadderedAt(s, e);
    Descend(s, e, 0);
    NewExecs(s, step, ExecId(e.chain, 0));
    ChainDrops(s, step, e, 0);
  }

  lemma ArrivalStartsFull(s: System, chain: nat)
    requires Enabled(s, Arrive(chain)) && Inv(s)
    ensures Budget(Do(s, Arrive(chain)), chain) == MAX_STEPS
  {
    var t := Do(s, Arrive(chain));
    forall a: nat | 0 < a <= 3 ensures ExecId(chain, a) !in t.execs {
      if ExecId(chain, a) in s.execs { Descend(s, ExecId(chain, a), 0); }
    }
    UnfoldChain(t, ExecId(chain, 0));
    UnfoldChain(t, ExecId(chain, 1));
    UnfoldChain(t, ExecId(chain, 2));
    UnfoldChain(t, ExecId(chain, 3));
  }

  lemma OtherStepKeepsBudget(s: System, step: Step, chain: nat)
    requires Enabled(s, step) && !Serves(step, chain) && step != Arrive(chain)
    ensures Budget(Do(s, step), chain) == Budget(s, chain)
  {
    var t := Do(s, step);
    forall a: nat | a <= 3
      ensures ExecId(chain, a) in s.execs <==> ExecId(chain, a) in t.execs
      ensures ExecId(chain, a) in s.execs ==> t.execs[ExecId(chain, a)].pc == s.execs[ExecId(chain, a)].pc
    {
      NewExecs(s, step, ExecId(chain, a));
      OtherExecs(s, step, ExecId(chain, a));
    }
    ChainUnchanged(s, t, chain, 0);
  }

  lemma BudgetAfter(s: System, step: Step, chain: nat)
    requires Enabled(s, step) && Inv(s)
    ensures Budget(Do(s, step), chain) + (if Serves(step, chain) then 1 else 0) <= Budget(s, chain)
  {
    if Serves(step, chain) {
      ServingStepSpends(s, step, step.e);
    } else if step == Arrive(chain) {
      ArrivalStartsFull(s, chain);
    } else {
      OtherStepKeepsBudget(s, step, chain);
    }
  }

  lemma {:induction false} RunSpends(s: System, steps: seq<Step>, chain: nat)
    requires Valid(s, steps) && Inv(s)
    ensures ServingSteps(steps, chain) + Budget(Run(s, steps), chain) <= Budget(s, chain)
    decreases |steps|
  {
    if steps != [] {
      BudgetAfter(s, steps[0], chain);
      StepKeepsInv(s, steps[0]);
      RunSpends(Do(s, steps[0]), steps[1..], chain);
    }
  }

  /** In every run, whatever else happens in it, at most 28 steps serve any one request, its retries included. */
  lemma RequestsTerminate(clock: int, conv: Conv, steps: seq<Step>, chain: nat)
    requires Valid(Initial(clock, conv), steps)
    ensures ServingSteps(steps, chain) <= 28
  {
    RunSpends(Initial(clock, conv), steps, chain);
  }

  predicate ChainOver(s: System, chain: nat) {
    forall e :: e in s.execs && e.chain == chain ==> Over(s, e)
  }

  lemma {:induction false} FreshId(used: set<nat>) returns (id: nat)
    ensures forall n :: n in used ==> n < id
  {
    if used == {} {
      id := 0;
    } else {
      var n :| n in used;
      var rest := FreshId(used - {n});
      id := if rest > n then rest else n + 1;
      assert forall m :: m in used ==> m == n || m in used - {n};
    }
  }

  /** One more step of an unfinished execution, after waiting for its countdown if need be. */
  lemma GoOn(s: System, e: ExecId, inputs: Inputs) returns (steps: seq<Step>)
    requires Inv(s) && e in s.execs && !Over(s, e)
    ensures Valid(s, steps) && Inv(Run(s, steps)) && Budget(Run(s, steps), e.chain) < Budget(s, e.chain)
  {
    var id := FreshId(s.store.messages.Keys);
    NeverStuck(s, e, inputs, id);
    var u := if s.execs[e].pc.Waiting? && s.clock < s.execs[e].pc.eta then Do(s, Tick(s.execs[e].pc.eta)) else s;
    var step :| ActsOn(step, e) && Enabled(u, step);
    steps := [step];
    RunCons(u, step, []);
    if s.execs[e].pc.Waiting? && s.clock < s.execs[e].pc.eta {
      var tick := Tick(s.execs[e].pc.eta);
      RunCons(s, tick, [step]);
      steps := [tick] + [step];
      BudgetAfter(s, tick, e.chain);
    }
    RunKeepsInv(s, steps);
    StepKeepsInv(s, Tick(u.clock));
    ServingStepSpends(u, step, e);
  }

  lemma {:induction false} RequestsCanFinish(s: System, chain: nat, inputs: Inputs) returns (steps: seq<Step>)
    requires Inv(s)
    ensures Valid(s, steps) && ChainOver(Run(s, steps), chain)
    decreases Budget(s, chain)
  {
    if ChainOver(s, chain) {
      steps := [];
    } else {
      var e :| e in s.execs && e.chain == chain && !Over(s, e);
      var first := GoOn(s, e, inputs);
      var rest := RequestsCanFinish(Run(s, first), chain, inputs);
      steps := first + rest;
      RunConcat(s, first, rest);
    }
  }

  /** And no run leaves a request hanging: it can always be continued until all the request's executions are over. */
  lemma EveryRequestCanFinish(clock: int, conv: Conv, steps: seq<Step>, chain: nat, inputs: Inputs) returns (more: seq<Step>)
    requires Valid(Initial(clock, conv), steps)
    ensures Valid(Initial(clock, conv), steps + more) && ChainOver(Run(Initial(clock, conv), steps + more), chain)
  {
    RunKeepsInv(Initial(clock, conv), steps);
    more := RequestsCanFinish(Run(Initial(clock, conv), steps), chain, inputs);
    RunConcat(Initial(clock, conv), steps, more);
  }

  lemma {:induction false} RunConcat(s: System, first: seq<Step>, rest: seq<Step>)
    requires Valid(s, first) && Valid(Run(s, first), rest)
    ensures Valid(s, first + rest) && Run(s, first + rest) == Run(Run(s, first), rest)
    decreases |first|
  {
    if first == [] {
      assert first + rest == rest;
    } else {
      assert (first + rest)[1..] == first[1..] + rest;
      RunConcat(Do(s, first[0]), first[1..], rest);
    }
  }
}
