/** What the conversation row goes through under all interleavings: arcs of the table except for one race of a forced
    hand-back, AI switched on by people only, and no dispatch after a hand-off without a person's release. */
module ProtocolHistory {
  import opened StateMachine
  import opened DecisionEngine
  import opened AiProtocol
  import opened Wrappers

  /** The change of the row its author may make. A worker keeps the state or takes a listed arc and never switches AI on.
      A person takes a listed arc from the state first read, or closes a closed conversation again; but a forced
      hand-back writes its target over whatever state it finds, and may switch AI on. */
  predicate Authored(a: Entry, b: Entry) {
    match b.author
    case Nobody => false
    case Worker(_) =>
      && (a.conv.state == b.conv.state || CanTransition(a.conv.state, b.conv.state))
      && (b.conv.aiEnabled ==> a.conv.aiEnabled)
    case Person(kind, from) =>
      && (kind == Close ==> b.conv.state == Closed)
      && (if HandsBack(kind, from) then a.conv.state != New && CanTransition(HumanAssigned, b.conv.state)
          else a.conv.state == from && (CanTransition(from, b.conv.state) || (kind == Close && from == Closed)))
      && b.conv.aiEnabled == (a.conv.aiEnabled || (HandsBack(kind, from) && b.conv.state == AiActive))
  }

  /** A forced hand-back that found the conversation closed and opened it again. */
  predicate Reopens(a: Entry, b: Entry) {
    b.author == Person(Force, HumanAssigned) && a.conv.state == Closed && b.conv.state != Closed
  }

  /** A forced hand-back to AI. It was asked for while a person was in charge, but what it replaced may be any state
      except NEW, to which nothing returns. */
  predicate Releases(a: Entry, b: Entry) {
    b.author == Person(Force, HumanAssigned) && a.conv.state != New && b.conv.state == AiActive
  }

  predicate ReopenedAt(history: seq<Entry>, k: int) { 0 < k < |history| && Reopens(history[k - 1], history[k]) }

  predicate ReleasedAt(history: seq<Entry>, k: int) { 0 < k < |history| && Releases(history[k - 1], history[k]) }

  predicate ArcAt(history: seq<Entry>, k: int) {
    0 < k < |history| &&
    (history[k - 1].conv.state == history[k].conv.state || CanTransition(history[k - 1].conv.state, history[k].conv.state))
  }

  /** An authored change leaves the table exactly when it reopens, and switches AI on only by a forced hand-back. */
  lemma ChangeFollows(a: Entry, b: Entry)
    requires Authored(a, b)
    ensures a.conv.state == b.conv.state || CanTransition(a.conv.state, b.conv.state) <==> !Reopens(a, b)
    ensures !a.conv.aiEnabled && b.conv.aiEnabled ==> Releases(a, b)
    ensures b.conv.state == New ==> a.conv.state == New
  {
  }

  predicate AuthoredHistory(history: seq<Entry>) {
    forall i :: 0 < i < |history| ==> Authored(history[i - 1], history[i])
  }

  /** The value read is one the row had, at the stated position. */
  predicate WasRead(s: System, conv: Conv, at: nat) {
    at < |s.history| && s.history[at].conv == conv
  }

  predicate SnapshotsWereRead(s: System) {
    && (forall e :: e in s.execs ==>
          && (s.execs[e].pc.Thinking? ==> WasRead(s, s.execs[e].pc.snap, s.execs[e].pc.at) && !NotForAi(s.execs[e].pc.snap))
          && (s.execs[e].pc.Assigning? ==> WasRead(s, s.execs[e].pc.snap, s.execs[e].pc.at)))
    && (forall e :: e in s.senders ==>
          && (s.senders[e].pc.GuardRead? ==> WasRead(s, s.senders[e].pc.conv, s.senders[e].pc.at))
          && (s.senders[e].pc.GuardPassed? ==>
                && WasRead(s, s.senders[e].pc.conv, s.senders[e].pc.at)
                && !NotSendable(s.senders[e].pc.conv) && s.senders[e].pc.status == Queued))
  }

  /** Each dispatch was let through by a guard that read an AI-handled conversation and a queued message. */
  predicate GuardedDispatches(s: System) {
    forall i :: 0 <= i < |s.dispatched| ==>
      && WasRead(s, s.dispatched[i].conv, s.dispatched[i].at)
      && !NotSendable(s.dispatched[i].conv)
      && s.dispatched[i].status == Queued
  }

  /** A waiting person's arc is in the table, or closes a closed conversation again. */
  predicate ArcPermitted(r: Request) {
    && (CanTransition(r.from, r.to) || (r.kind == Close && r.from == Closed == r.to))
    && (r.kind == Close ==> r.to == Closed)
  }

  /** Once a person has been in charge the conversation is never new again. */
  predicate RequestsPermitted(s: System) {
    forall h :: h in s.requests ==>
      ArcPermitted(s.requests[h]) && (s.requests[h].from == HumanAssigned ==> s.store.conv.state != New)
  }

  predicate CurrentIsLast(s: System) {
    s.history != [] && s.history[|s.history| - 1].conv == s.store.conv
  }

  predicate Inv(s: System) {
    CurrentIsLast(s) && AuthoredHistory(s.history) && SnapshotsWereRead(s) && GuardedDispatches(s) && RequestsPermitted(s)
  }

  /** t keeps s's history, or adds one entry authored by a worker or by the step's own request. */
  predicate Extends(s: System, step: Step, t: System)
    requires CurrentIsLast(s)
  {
    || (t.history == s.history && t.store.conv == s.store.conv)
    || (&& |t.history| == |s.history| + 1
        && t.history == s.history + [Entry(t.store.conv, t.history[|s.history|].author)]
        && Authored(s.history[|s.history| - 1], t.history[|s.history|])
        && match t.history[|s.history|].author
           case Nobody => false
           case Person(_, _) => step.PersonCommits?
           case Worker(e) => (step.Think? || step.Handover?) && step.e == e)
  }

  lemma DecisionExtends(s: System, e: ExecId, inputs: Inputs, id: nat, delay: nat)
    requires Enabled(s, Think(e, inputs, id, delay)) && CurrentIsLast(s)
    ensures Extends(s, Think(e, inputs, id, delay), DoThink(s, e, inputs, id, delay))
  {
    if Cascade(inputs.bulk, inputs.second).Replied? {
      var plan := PlanOf(inputs);
      if plan.target.Some? { StaleMoveIsSafe(s.store.conv, s.execs[e].pc.snap.state, plan.target.value); }
    }
  }

  lemma HandoverExtends(s: System, e: ExecId)
    requires Enabled(s, Handover(e)) && CurrentIsLast(s)
    ensures Extends(s, Handover(e), DoHandover(s, e))
  {
    FallbackHandsOff(s.store, s.execs[e].pc.snap.state);
  }

  lemma PersonExtends(s: System, h: nat, promoted: Option<nat>)
    requires Enabled(s, PersonCommits(h, promoted)) && CurrentIsLast(s) && RequestsPermitted(s)
    ensures Extends(s, PersonCommits(h, promoted), DoPersonCommits(s, h, promoted))
  {
  }

  /** A step leaves the history alone or adds one authored entry, which is then the current row. */
  lemma HistoryAfter(s: System, step: Step)
    requires Enabled(s, step) && CurrentIsLast(s) && RequestsPermitted(s)
    ensures Extends(s, step, Do(s, step))
  {
    match step
    case Think(e, inputs, id, delay) => DecisionExtends(s, e, inputs, id, delay);
    case Handover(e) => HandoverExtends(s, e);
    case PersonCommits(h, promoted) => PersonExtends(s, h, promoted);
    case _ =>
  }

  lemma StepKeepsHistory(s: System, step: Step)
    requires Enabled(s, step) && Inv(s)
    ensures CurrentIsLast(Do(s, step)) && AuthoredHistory(Do(s, step).history)
    ensures |Do(s, step).history| >= |s.history| && Do(s, step).history[..|s.history|] == s.history
  {
    HistoryAfter(s, step);
    var t := Do(s, step);
    assert t.history[..|s.history|] == s.history;
    forall i | 0 < i < |t.history| ensures Authored(t.history[i - 1], t.history[i]) {
      if i < |s.history| {
        assert t.history[i] == t.history[..|s.history|][i] && t.history[i - 1] == t.history[..|s.history|][i - 1];
      } else {
        assert t.history[i - 1] == t.history[..|s.history|][i - 1];
      }
    }
  }

  lemma ReadStaysRead(s: System, t: System, conv: Conv, at: nat)
    requires |t.history| >= |s.history| && t.history[..|s.history|] == s.history && WasRead(s, conv, at)
    ensures WasRead(t, conv, at)
  {
  }

  /** An execution's or a sender's own record after a step. */
  lemma ExecAfter(s: System, step: Step, e: ExecId)
    requires Enabled(s, step) && CurrentIsLast(s) && e in Do(s, step).execs
    ensures var x := Do(s, step).execs[e];
            || (e in s.execs && x.pc == s.execs[e].pc)
            || !(x.pc.Thinking? || x.pc.Assigning?)
            || (x.pc.Thinking? && x.pc.snap == s.store.conv && x.pc.at == |s.history| - 1 && !NotForAi(x.pc.snap))
            || (x.pc.Assigning? && x.pc.snap == s.store.conv && x.pc.at == |s.history| - 1)
  {
    if ActsOn(step, e) { ActingExec(s, step, e); } else { OtherExecs(s, step, e); }
  }

  lemma SenderAfter(s: System, step: Step, e: ExecId)
    requires Enabled(s, step) && CurrentIsLast(s) && e in Do(s, step).senders
    ensures var x := Do(s, step).senders[e].pc;
            || (e in s.senders && x == s.senders[e].pc)
            || x.Due? || x.Finished?
            || (x.GuardRead? && x.conv == s.store.conv && x.at == |s.history| - 1)
            || (x.GuardPassed? && e in s.senders && s.senders[e].pc == GuardRead(x.conv, x.at)
                && !NotSendable(x.conv) && x.status == Queued)
  {
  }

  lemma StepKeepsSnapshots(s: System, step: Step)
    requires Enabled(s, step) && Inv(s)
    ensures SnapshotsWereRead(Do(s, step))
  {
    var t := Do(s, step);
    StepKeepsHistory(s, step);
    assert WasRead(s, s.store.conv, |s.history| - 1);
    ReadStaysRead(s, t, s.store.conv, |s.history| - 1);
    forall e | e in t.execs
      ensures t.execs[e].pc.Thinking? ==> WasRead(t, t.execs[e].pc.snap, t.execs[e].pc.at) && !NotForAi(t.execs[e].pc.snap)
      ensures t.execs[e].pc.Assigning? ==> WasRead(t, t.execs[e].pc.snap, t.execs[e].pc.at)
    {
      ExecAfter(s, step, e);
      if e in s.execs && t.execs[e].pc == s.execs[e].pc {
        if s.execs[e].pc.Thinking? || s.execs[e].pc.Assigning? {
          ReadStaysRead(s, t, s.execs[e].pc.snap, s.execs[e].pc.at);
        }
      }
    }
    forall e | e in t.senders
      ensures t.senders[e].pc.GuardRead? ==> WasRead(t, t.senders[e].pc.conv, t.senders[e].pc.at)
      ensures t.senders[e].pc.GuardPassed? ==>
                && WasRead(t, t.senders[e].pc.conv, t.senders[e].pc.at)
                && !NotSendable(t.senders[e].pc.conv) && t.senders[e].pc.status == Queued
    {
      SenderAfter(s, step, e);
      if e in s.senders && (s.senders[e].pc.GuardRead? || s.senders[e].pc.GuardPassed?) {
        ReadStaysRead(s, t, s.senders[e].pc.conv, s.senders[e].pc.at);
      }
    }
  }

  lemma StepKeepsDispatches(s: System, step: Step)
    requires Enabled(s, step) && Inv(s)
    ensures GuardedDispatches(Do(s, step))
  {
    var t := Do(s, step);
    StepKeepsHistory(s, step);
    DispatchedAfter(s, step);
    forall i | 0 <= i < |t.dispatched|
      ensures WasRead(t, t.dispatched[i].conv, t.dispatched[i].at)
      ensures !NotSendable(t.dispatched[i].conv) && t.dispatched[i].status == Queued
    {
      if i < |s.dispatched| {
        assert t.dispatched[i] == s.dispatched[i];
      }
      ReadStaysRead(s, t, t.dispatched[i].conv, t.dispatched[i].at);
    }
  }

  lemma StepKeepsRequests(s: System, step: Step)
    requires Enabled(s, step) && Inv(s)
    ensures RequestsPermitted(Do(s, step))
  {
    var t := Do(s, step);
    RequestsAfter(s, step);
    HistoryAfter(s, step);
    if t.history != s.history { ChangeFollows(s.history[|s.history| - 1], t.history[|s.history|]); }
    if step.PersonReads? { PermittedArc(step.request, s.store.conv); }
  }

  lemma PermittedArc(r: Request, read: Conv)
    requires Permitted(r, read)
    ensures ArcPermitted(r) && r.from == read.state
  {
  }

  lemma RequestsAfter(s: System, step: Step)
    requires Enabled(s, step)
    ensures Do(s, step).requests ==
            (match step
             case PersonReads(h, r) => s.requests[h := r]
             case PersonCommits(h, _) => s.requests - {h}
             case _ => s.requests)
  {
    match step
    case Think(e, inputs, id, delay) =>
    case _ =>
  }

  lemma {:induction false} RunKeepsInv(s: System, steps: seq<Step>)
    requires Valid(s, steps) && Inv(s)
    ensures Inv(Run(s, steps))
    ensures |Run(s, steps).history| >= |s.history| && Run(s, steps).history[..|s.history|] == s.history
    decreases |steps|
  {
    if steps == [] {
      assert s.history[..|s.history|] == s.history;
    } else {
      var t := Do(s, steps[0]);
      StepKeepsHistory(s, steps[0]);
      StepKeepsSnapshots(s, steps[0]);
      StepKeepsDispatches(s, steps[0]);
      StepKeepsRequests(s, steps[0]);
      RunKeepsInv(t, steps[1..]);
      var u := Run(t, steps[1..]);
      assert u.history[..|s.history|] == u.history[..|t.history|][..|s.history|];
    }
  }

  function States(history: seq<Entry>): seq<State> {
    seq(|history|, i requires 0 <= i < |history| => history[i].conv.state)
  }

  lemma PathUnlessReopened(history: seq<Entry>)
    requires AuthoredHistory(history)
    ensures IsPath(States(history)) <==> forall k :: 0 < k < |history| ==> !ReopenedAt(history, k)
  {
    forall k | 0 < k < |history| ensures ArcAt(history, k) <==> !ReopenedAt(history, k) {
      assert Authored(history[k - 1], history[k]);
      ChangeFollows(history[k - 1], history[k]);
    }
    var states := States(history);
    if forall k :: 0 < k < |history| ==> !ReopenedAt(history, k) {
      forall k | 0 < k < |states| ensures states[k - 1] == states[k] || CanTransition(states[k - 1], states[k]) {
        assert ArcAt(history, k);
      }
    } else {
      var k :| 0 < k < |history| && ReopenedAt(history, k);
      assert !ArcAt(history, k);
      assert !(states[k - 1] == states[k] || CanTransition(states[k - 1], states[k]));
    }
  }

  /** For any number of workers, senders and people with stale reads, the states the row goes through form a path of
      the table if and only if no forced hand-back to a state other than CLOSED found the conversation closed. */
  lemma StatesFollowTheTable(clock: int, conv: Conv, steps: seq<Step>)
    requires Valid(Initial(clock, conv), steps)
    ensures var history := Run(Initial(clock, conv), steps).history;
            IsPath(States(history)) <==> forall k :: 0 < k < |history| ==> !ReopenedAt(history, k)
  {
    RunKeepsInv(Initial(clock, conv), steps);
    PathUnlessReopened(Run(Initial(clock, conv), steps).history);
  }

  /** CLOSED is left only by such a hand-back. */
  lemma {:induction false} ClosedUntilReopened(history: seq<Entry>, i: nat, j: nat) returns (k: nat)
    requires AuthoredHistory(history) && i < j < |history|
    requires history[i].conv.state == Closed != history[j].conv.state
    ensures i < k <= j && ReopenedAt(history, k)
  {
    assert Authored(history[j - 1], history[j]);
    ChangeFollows(history[j - 1], history[j]);
    if history[j - 1].conv.state == Closed {
      k := j;
    } else {
      k := ClosedUntilReopened(history, i, j - 1);
    }
  }

  /** One forced hand-back: it always writes its target, and that is an arc of the table, or no change of state, if and
      only if the conversation was not closed in the meantime or is to be closed. */
  lemma HandBackFollowsTableIff(s: System, h: nat)
    requires Inv(s) && h in s.requests && HandsBack(s.requests[h].kind, s.requests[h].from)
    ensures var r := s.requests[h]; var t := Do(s, PersonCommits(h, None));
            && Enabled(s, PersonCommits(h, None))
            && t.store.conv == PersonConv(s.store.conv, r)
            && t.history == s.history + [Entry(t.store.conv, Person(Force, HumanAssigned))]
            && (s.store.conv.state == t.store.conv.state || CanTransition(s.store.conv.state, t.store.conv.state)
                <==> s.store.conv.state != Closed || r.to == Closed)
  {
  }

  // A forced hand-back overtaken by a close: both read the conversation while a person was in charge.
  const HAND_BACK: Request := Request(Force, HumanAssigned, AiActive)
  const CLOSE: Request := Request(Close, HumanAssigned, Closed)

  function Overtaken(h: nat, g: nat): seq<Step> {
    [PersonReads(h, HAND_BACK), PersonReads(g, CLOSE), PersonCommits(g, None), PersonCommits(h, None)]
  }

  lemma BothRead(s: System, h: nat, g: nat)
    requires s.store.conv.state == HumanAssigned && h !in s.requests && g !in s.requests && h != g
    ensures Enabled(s, PersonReads(h, HAND_BACK)) && Enabled(Do(s, PersonReads(h, HAND_BACK)), PersonReads(g, CLOSE))
    ensures Do(Do(s, PersonReads(h, HAND_BACK)), PersonReads(g, CLOSE)) == s.(requests := s.requests[h := HAND_BACK][g := CLOSE])
  {
  }

  lemma CloseCommits(s: System, g: nat)
    requires g in s.requests && s.requests[g] == CLOSE && s.store.conv.state == HumanAssigned
    ensures var after := Conv(Closed, s.store.conv.aiEnabled);
            && Enabled(s, PersonCommits(g, None))
            && Do(s, PersonCommits(g, None)) ==
                 s.(store := s.store.(conv := after), history := s.history + [Entry(after, Person(Close, HumanAssigned))],
                    requests := s.requests - {g})
  {
  }

  lemma HandBackCommits(s: System, h: nat)
    requires h in s.requests && s.requests[h] == HAND_BACK
    ensures Enabled(s, PersonCommits(h, None))
    ensures var t := Do(s, PersonCommits(h, None));
            t.store.conv == Conv(AiActive, true) && t.history == s.history + [Entry(t.store.conv, Person(Force, HumanAssigned))]
  {
  }

  /** From every state in which a person is in charge, a close that overtakes a forced hand-back is undone by it. */
  lemma CloseIsOvertaken(s: System, h: nat, g: nat)
    requires s.store.conv.state == HumanAssigned && h !in s.requests && g !in s.requests && h != g
    ensures Valid(s, Overtaken(h, g))
    ensures Run(s, Overtaken(h, g)).store.conv == Conv(AiActive, true)
    ensures Run(s, Overtaken(h, g)).history ==
              s.history + [Entry(Conv(Closed, s.store.conv.aiEnabled), Person(Close, HumanAssigned))]
                        + [Entry(Conv(AiActive, true), Person(Force, HumanAssigned))]
  {
    var s1 := Do(s, PersonReads(h, HAND_BACK));
    BothRead(s, h, g);
    var s2 := Do(s1, PersonReads(g, CLOSE));
    CloseCommits(s2, g);
    var s3 := Do(s2, PersonCommits(g, None));
    HandBackCommits(s3, h);
    RunCons(s3, PersonCommits(h, None), []);
    RunCons(s2, PersonCommits(g, None), [PersonCommits(h, None)]);
    RunCons(s1, PersonReads(g, CLOSE), [PersonCommits(g, None), PersonCommits(h, None)]);
    RunCons(s, PersonReads(h, HAND_BACK), [PersonReads(g, CLOSE), PersonCommits(g, None), PersonCommits(h, None)]);
  }

  /** So the exception occurs: a run from the start takes a conversation from CLOSED to AI_ACTIVE with AI on. */
  lemma ClosedIsReopened()
    ensures var s := Initial(0, Conv(HumanAssigned, false));
            && Valid(s, Overtaken(0, 1))
            && States(Run(s, Overtaken(0, 1)).history) == [HumanAssigned, Closed, AiActive]
            && Run(s, Overtaken(0, 1)).store.conv == Conv(AiActive, true)
            && !IsPath([HumanAssigned, Closed, AiActive])
  {
    CloseIsOvertaken(Initial(0, Conv(HumanAssigned, false)), 0, 1);
    var states := [HumanAssigned, Closed, AiActive];
    assert states[1] == Closed && states[2] == AiActive;
  }

  /** Apart from forced hand-backs, a person's change goes from CLOSED to CLOSED exactly when it is a close that read
      CLOSED. */
  lemma ClosedAgainExactly(clock: int, conv: Conv, steps: seq<Step>, k: nat)
    requires Valid(Initial(clock, conv), steps)
    requires 0 < k < |Run(Initial(clock, conv), steps).history|
    requires var author := Run(Initial(clock, conv), steps).history[k].author;
             author.Person? && !HandsBack(author.kind, author.from)
    ensures var history := Run(Initial(clock, conv), steps).history;
            history[k - 1].conv.state == Closed == history[k].conv.state <==> history[k].author == Person(Close, Closed)
  {
    RunKeepsInv(Initial(clock, conv), steps);
    var history := Run(Initial(clock, conv), steps).history;
    assert Authored(history[k - 1], history[k]);
  }

  /** Closing never consults the table: from every state with a closed conversation a person can close it again. */
  lemma ClosedCanBeClosedAgain(s: System, h: nat)
    requires s.store.conv.state == Closed && h !in s.requests
    ensures var steps := [PersonReads(h, Request(Close, Closed, Closed)), PersonCommits(h, None)];
            Valid(s, steps) && Run(s, steps).history == s.history + [Entry(s.store.conv, Person(Close, Closed))]
  {
    var asks := PersonReads(h, Request(Close, Closed, Closed));
    RunCons(Do(s, asks), PersonCommits(h, None), []);
    RunCons(s, asks, [PersonCommits(h, None)]);
  }

  /** AI goes from off to on only across a forced hand-back by a person. */
  lemma {:induction false} OnlyPeopleSwitchAiOn(history: seq<Entry>, i: nat, j: nat) returns (k: nat)
    requires AuthoredHistory(history) && i < j < |history|
    requires !history[i].conv.aiEnabled && history[j].conv.aiEnabled
    ensures i < k <= j && ReleasedAt(history, k)
  {
    assert Authored(history[j - 1], history[j]);
    ChangeFollows(history[j - 1], history[j]);
    if history[j - 1].conv.aiEnabled {
      k := OnlyPeopleSwitchAiOn(history, i, j - 1);
    } else {
      k := j;
    }
  }

  /** No AI step switches AI on: from a state with AI off, only a person's forced hand-back leads to AI on. */
  lemma AiStepsNeverEnableAi(s: System, step: Step)
    requires Enabled(s, step) && Inv(s) && !s.store.conv.aiEnabled && Do(s, step).store.conv.aiEnabled
    ensures step.PersonCommits? && HandsBack(s.requests[step.h].kind, s.requests[step.h].from)
  {
    HistoryAfter(s, step);
    ChangeFollows(s.history[|s.history| - 1], Do(s, step).history[|s.history|]);
  }

  /** The dispatch passed a guard that had read AI on, a state open to AI and a queued message; and if the row had AI
      off at some earlier point, a person handed it back before that read. */
  ghost predicate WellGuarded(s: System, x: Dispatch) {
    && WasRead(s, x.conv, x.at)
    && x.conv.aiEnabled && (x.conv.state == New || x.conv.state == AiActive) && x.status == Queued
    && forall i :: 0 <= i < x.at && !s.history[i].conv.aiEnabled ==> exists k :: i < k <= x.at && ReleasedAt(s.history, k)
  }

  lemma DispatchWellGuarded(s: System, d: nat)
    requires Inv(s) && d < |s.dispatched|
    ensures WellGuarded(s, s.dispatched[d])
  {
    var x := s.dispatched[d];
    assert WasRead(s, x.conv, x.at) && !NotSendable(x.conv) && x.status == Queued;
    forall i | 0 <= i < x.at && !s.history[i].conv.aiEnabled
      ensures exists k :: i < k <= x.at && ReleasedAt(s.history, k)
    {
      var k := OnlyPeopleSwitchAiOn(s.history, i, x.at);
    }
  }

  /** Over every interleaving of workers, delayed senders and people, every dispatch is well guarded. */
  lemma DispatchesAreGuarded(clock: int, conv: Conv, steps: seq<Step>, d: nat)
    requires Valid(Initial(clock, conv), steps)
    requires d < |Run(Initial(clock, conv), steps).dispatched|
    ensures WellGuarded(Run(Initial(clock, conv), steps), Run(Initial(clock, conv), steps).dispatched[d])
  {
    RunKeepsInv(Initial(clock, conv), steps);
    DispatchWellGuarded(Run(Initial(clock, conv), steps), d);
  }

  function Takeover(e: ExecId, h: nat, from: State): seq<Step> {
    [PersonReads(h, Request(Assign, from, HumanAssigned)), PersonCommits(h, None), SendCheck(e), SendDispatch(e)]
  }

  lemma PersonTakesOver(s: System, h: nat)
    requires h !in s.requests && CanTransition(s.store.conv.state, HumanAssigned)
    ensures var asks := PersonReads(h, Request(Assign, s.store.conv.state, HumanAssigned));
            && Enabled(s, asks) && Enabled(Do(s, asks), PersonCommits(h, None))
            && Do(Do(s, asks), PersonCommits(h, None)) ==
                 s.(store := s.store.(conv := Conv(HumanAssigned, s.store.conv.aiEnabled)),
                    history := s.history + [Entry(Conv(HumanAssigned, s.store.conv.aiEnabled), Person(Assign, s.store.conv.state))])
  {
    var r := Request(Assign, s.store.conv.state, HumanAssigned);
    assert s.requests[h := r] - {h} == s.requests;
  }

  lemma GuardStillPasses(s: System, e: ExecId)
    requires e in s.senders && s.senders[e].pc.GuardRead? && !NotSendable(s.senders[e].pc.conv)
    requires s.senders[e].message in s.store.messages && s.store.messages[s.senders[e].message].status == Queued
    ensures Enabled(s, SendCheck(e)) && Enabled(Do(s, SendCheck(e)), SendDispatch(e))
    ensures var t := Do(Do(s, SendCheck(e)), SendDispatch(e));
            && t.store == s.store && t.history == s.history
            && t.dispatched ==
                 s.dispatched + [Dispatch(e, s.senders[e].message, s.senders[e].pc.conv, s.senders[e].pc.at, Queued)]
  {
  }

  /** The guard is not atomic with the dispatch: from every state in which a sender has just read a conversation open
      to AI and its message is still queued, a person can be put in charge, and the message goes out all the same. */
  lemma GuardIsNotAtomic(s: System, e: ExecId, h: nat)
    requires e in s.senders && s.senders[e].pc.GuardRead? && s.senders[e].pc.conv == s.store.conv
    requires !NotSendable(s.store.conv) && h !in s.requests
    requires s.senders[e].message in s.store.messages && s.store.messages[s.senders[e].message].status == Queued
    ensures var run := Takeover(e, h, s.store.conv.state);
            && Valid(s, run)
            && Run(s, run).store.conv.state == HumanAssigned
            && Run(s, run).history == s.history + [Entry(Conv(HumanAssigned, true), Person(Assign, s.store.conv.state))]
            && Run(s, run).dispatched ==
                 s.dispatched + [Dispatch(e, s.senders[e].message, s.store.conv, s.senders[e].pc.at, Queued)]
  {
    var asks := PersonReads(h, Request(Assign, s.store.conv.state, HumanAssigned));
    HandoffEdge(s.store.conv.state);
    PersonTakesOver(s, h);
    var s1 := Do(s, asks);
    var s2 := Do(s1, PersonCommits(h, None));
    GuardStillPasses(s2, e);
    RunCons(Do(s2, SendCheck(e)), SendDispatch(e), []);
    RunCons(s2, SendCheck(e), [SendDispatch(e)]);
    RunCons(s1, PersonCommits(h, None), [SendCheck(e), SendDispatch(e)]);
    RunCons(s, asks, [PersonCommits(h, None), SendCheck(e), SendDispatch(e)]);
  }

  // ------------------------------------------------------------ a person's operation

  /** What people can ask for, state by state. */
  lemma OperationsByState(r: Request, read: Conv)
    ensures Permitted(r, read) ==> r.from == read.state
    ensures r.from == read.state ==>
              (Permitted(r, read) <==>
                 match r.from
                 case New =>
                   || (r.kind == Assign && r.to == HumanAssigned) || (r.kind == Close && r.to == Closed)
                   || (r.kind in {Force, Bulk} && r.to in {AiActive, HumanAssigned, Closed})
                   || (r.kind == FirstInbound && r.to == if read.aiEnabled then AiActive else HumanAssigned)
                 case AiActive =>
                   || (r.kind == Pause && r.to == AiPaused) || (r.kind == Assign && r.to == HumanAssigned)
                   || (r.kind == Close && r.to == Closed)
                   || (r.kind in {Force, Bulk} && r.to in {AwaitingApproval, HumanAssigned, AiPaused, Closed})
                 case AwaitingApproval =>
                   || (r.kind == Approve && r.to == AiActive) || (r.kind in {Assign, Reject} && r.to == HumanAssigned)
                   || (r.kind == Close && r.to == Closed)
                   || (r.kind in {Force, Bulk} && r.to in {AiActive, HumanAssigned, AiPaused, Closed})
                 case HumanAssigned =>
                   || (r.kind == Close && r.to == Closed)
                   || (r.kind in {Force, Bulk} && r.to in {AiPaused, AiActive, Closed})
                 case AiPaused =>
                   || (r.kind == Resume && r.to == AiActive) || (r.kind == Assign && r.to == HumanAssigned)
                   || (r.kind == Close && r.to == Closed)
                   || (r.kind in {Force, Bulk} && r.to in {AiActive, HumanAssigned, Closed})
                 case Closed => r.kind == Close && r.to == Closed)
  {
    ArcsInto(r.from);
    match r.kind
    case Pause =>
    case Resume =>
    case Assign =>
    case Approve =>
    case Reject =>
    case Close =>
    case Force =>
    case Bulk =>
    case FirstInbound =>
  }

  /** What the update leaves: nothing if somebody changed the state since it was first read, unless it is a forced
      hand-back; otherwise the state asked for, AI switched on by a forced hand-back to AI alone, and an approval queues a
      waiting draft whenever there is one. */
  lemma PersonCommitsExactly(s: System, h: nat, promoted: Option<nat>)
    requires Enabled(s, PersonCommits(h, promoted))
    ensures var r, before, after := s.requests[h], s.store, Do(s, PersonCommits(h, promoted)).store;
            var handsBack := r.kind == Force && r.from == HumanAssigned;
            && (before.conv.state != r.from && !handsBack ==> after == before)
            && (before.conv.state == r.from || handsBack ==>
                  && after.conv == Conv(r.to, before.conv.aiEnabled || (handsBack && r.to == AiActive))
                  && (r.kind != Approve ==> after.messages == before.messages)
                  && (r.kind == Approve && (exists id :: id in before.messages && before.messages[id].status == Draft) ==>
                        exists id :: id in before.messages && before.messages[id].status == Draft
                          && after.messages == before.messages[id := before.messages[id].(status := Queued)])
                  && (r.kind == Approve && (forall id :: id in before.messages ==> before.messages[id].status != Draft) ==>
                        after.messages == before.messages))
  {
    match promoted
    case None =>
    case Some(id) => assert id in s.store.messages && s.store.messages[id].status == Draft;
  }
}
