/** What the human fallback leaves behind, over all runs. */
module ProtocolFallback {
  import opened StateMachine
  import opened DecisionEngine
  import opened AiProtocol
  import ProtocolHistory

  /** The values of the row that the execution committed, in order. */
  function ByWorker(history: seq<Entry>, e: ExecId): seq<Conv> {
    if history == [] then []
    else
      var last := history[|history| - 1];
      ByWorker(history[..|history| - 1], e) + (if last.author == Worker(e) then [last.conv] else [])
  }

  predicate HadState(history: seq<Entry>, state: State) {
    exists k :: 0 <= k < |history| && history[k].conv.state == state
  }

  /** Where an execution has not touched the row yet. */
  predicate Untouched(pc: Pc) { pc.Waiting? || pc.Locked? || pc.Thinking? || pc.CallFailed? || pc.Assigning? }

  predicate FellBackTo(pc: Pc) { (pc.Releasing? || pc.Done?) && pc.out.FellBack? }

  /** The fallback handed over exactly when the state it read allowed it, and then its hand-over is the one value the
      execution committed. */
  predicate FallbackFits(history: seq<Entry>, e: ExecId, out: Outcome)
    requires out.FellBack?
  {
    && HadState(history, out.read)
    && (out.handedOff <==> out.read != HumanAssigned && out.read != Closed)
    && ByWorker(history, e) == if out.handedOff then [Conv(HumanAssigned, false)] else []
  }

  predicate Fits(s: System, e: ExecId) {
    && (e !in s.execs || Untouched(s.execs[e].pc) ==> ByWorker(s.history, e) == [])
    && (e in s.execs && FellBackTo(s.execs[e].pc) ==> FallbackFits(s.history, e, s.execs[e].pc.out))
  }

  ghost predicate Inv(s: System) {
    ProtocolHistory.Inv(s) && forall e :: Fits(s, e)
  }

  /** How the history grows, seen from one execution. */
  lemma ByWorkerAfter(s: System, step: Step, e: ExecId)
    requires Enabled(s, step) && ProtocolHistory.Inv(s)
    ensures ByWorker(Do(s, step).history, e) == ByWorker(s.history, e)
            || ((step.Think? || step.Handover?) && step.e == e
                && ByWorker(Do(s, step).history, e) == ByWorker(s.history, e) + [Do(s, step).store.conv])
    ensures forall state :: HadState(s.history, state) ==> HadState(Do(s, step).history, state)
  {
    ProtocolHistory.HistoryAfter(s, step);
    var t := Do(s, step);
    if t.history != s.history {
      assert t.history[..|t.history| - 1] == s.history;
      forall state | HadState(s.history, state) ensures HadState(t.history, state) {
        var k :| 0 <= k < |s.history| && s.history[k].conv.state == state;
        assert t.history[k] == s.history[k];
      }
    }
  }

  /** The hand-over step itself. */
  lemma HandoverFits(s: System, e: ExecId)
    requires Enabled(s, Handover(e)) && Inv(s)
    ensures Fits(Do(s, Handover(e)), e)
  {
    var t := Do(s, Handover(e));
    var read := s.execs[e].pc.snap.state;
    ByWorkerAfter(s, Handover(e), e);
    FallbackHandsOff(s.store, read);
    assert Fits(s, e);
    assert HadState(s.history, read) by {
      assert s.history[s.execs[e].pc.at].conv.state == read;
    }
    if AssignHuman(s.store, read).HandedOff? {
      assert t.history == s.history + [Entry(t.store.conv, Worker(e))];
      assert t.history[..|t.history| - 1] == s.history;
    }
  }

  lemma OtherStepFits(s: System, step: Step, e: ExecId)
    requires Enabled(s, step) && Inv(s) && step != Handover(e)
    ensures Fits(Do(s, step), e)
  {
    ByWorkerAfter(s, step, e);
    assert Fits(s, e);
    if ActsOn(step, e) { ActingExec(s, step, e); } else { OtherExecs(s, step, e); }
  }

  lemma StepKeepsInv(s: System, step: Step)
    requires Enabled(s, step) && Inv(s)
    ensures Inv(Do(s, step))
  {
    ProtocolHistory.StepKeepsHistory(s, step);
    ProtocolHistory.StepKeepsSnapshots(s, step);
    ProtocolHistory.StepKeepsDispatches(s, step);
    ProtocolHistory.StepKeepsRequests(s, step);
    forall e ensures Fits(Do(s, step), e) {
      if step == Handover(e) { HandoverFits(s, e); } else { OtherStepFits(s, step, e); }
    }
  }

  lemma {:induction false} RunFits(s: System, steps: seq<Step>, e: ExecId)
    requires Valid(s, steps) && Inv(s)
    ensures Fits(Run(s, steps), e)
    decreases |steps|
  {
    if steps == [] {
      assert Fits(s, e);
    } else {
      StepKeepsInv(s, steps[0]);
      RunFits(Do(s, steps[0]), steps[1..], e);
    }
  }

  /** Over every interleaving: an execution that ended in the human fallback with a hand-over committed exactly one value of
      the row, a person in charge with AI off; one that ended in it without had read a conversation already handed over
      or closed, and committed nothing to the row. The state it read is one the row really had. */
  lemma FallbackOverRuns(clock: int, conv: Conv, steps: seq<Step>, e: ExecId)
    requires Valid(Initial(clock, conv), steps)
    requires e in Run(Initial(clock, conv), steps).execs && FellBackTo(Run(Initial(clock, conv), steps).execs[e].pc)
    ensures var s := Run(Initial(clock, conv), steps);
            FallbackFits(s.history, e, s.execs[e].pc.out)
  {
    forall f ensures Fits(Initial(clock, conv), f) {
      assert Initial(clock, conv).history[..0] == [];
    }
    RunFits(Initial(clock, conv), steps, e);
  }
}
