/** No message is handed to the dispatcher twice. */
module ProtocolSends {
  import opened StateMachine
  import opened DecisionEngine
  import opened AiProtocol
  import ProtocolCommits

  /** Each dispatch is the one dispatch of a sender that has finished with it. */
  predicate OncePerSender(s: System) {
    && (forall i :: 0 <= i < |s.dispatched| ==>
          && s.dispatched[i].exec in s.senders
          && s.senders[s.dispatched[i].exec] == Sender(s.dispatched[i].message, Finished(true)))
    && (forall i, j :: 0 <= i < j < |s.dispatched| ==> s.dispatched[i].exec != s.dispatched[j].exec)
  }

  lemma FinishedStays(s: System, step: Step, e: ExecId)
    requires Enabled(s, step) && e in s.senders && s.senders[e].pc.Finished? && step != Enqueue(e)
    ensures e in Do(s, step).senders && Do(s, step).senders[e] == s.senders[e]
  {
    match step
    case Think(_, _, _, _) =>
    case _ =>
  }

  lemma StepKeepsOnce(s: System, step: Step)
    requires Enabled(s, step) && OncePerSender(s) && ProtocolCommits.SendersOwned(s)
    ensures OncePerSender(Do(s, step))
  {
    var t := Do(s, step);
    DispatchedAfter(s, step);
    forall i | 0 <= i < |s.dispatched|
      ensures t.dispatched[i] == s.dispatched[i]
      ensures t.dispatched[i].exec in t.senders
      ensures t.senders[t.dispatched[i].exec] == Sender(t.dispatched[i].message, Finished(true))
    {
      FinishedStays(s, step, s.dispatched[i].exec);
    }
  }

  lemma {:induction false} RunKeepsOnce(s: System, steps: seq<Step>)
    requires Valid(s, steps) && OncePerSender(s) && ProtocolCommits.Inv(s)
    ensures OncePerSender(Run(s, steps))
    decreases |steps|
  {
    if steps != [] {
      StepKeepsOnce(s, steps[0]);
      ProtocolCommits.StepKeepsInv(s, steps[0]);
      RunKeepsOnce(Do(s, steps[0]), steps[1..]);
    }
  }

  /** Over every interleaving, with retries and crashes, delayed senders hand each message to the dispatcher at most
      once, and only a message that some execution committed for auto-send. */
  lemma AtMostOneDispatch(clock: int, conv: Conv, steps: seq<Step>)
    requires Valid(Initial(clock, conv), steps)
    ensures var s := Run(Initial(clock, conv), steps);
            && (forall i, j :: 0 <= i < j < |s.dispatched| ==> s.dispatched[i].message != s.dispatched[j].message)
            && (forall i :: 0 <= i < |s.dispatched| ==>
                  ProtocolCommits.AutoSent(s, s.dispatched[i].exec, s.dispatched[i].message))
  {
    RunKeepsOnce(Initial(clock, conv), steps);
    ProtocolCommits.RunKeepsInv(Initial(clock, conv), steps);
    SendersAreDistinct(Run(Initial(clock, conv), steps));
  }

  lemma SendersAreDistinct(s: System)
    requires OncePerSender(s) && ProtocolCommits.SendersOwned(s) && ProtocolCommits.MessagesOwned(s)
    ensures forall i :: 0 <= i < |s.dispatched| ==>
              ProtocolCommits.AutoSent(s, s.dispatched[i].exec, s.dispatched[i].message)
    ensures forall i, j :: 0 <= i < j < |s.dispatched| ==> s.dispatched[i].message != s.dispatched[j].message
  {
    forall i | 0 <= i < |s.dispatched|
      ensures ProtocolCommits.AutoSent(s, s.dispatched[i].exec, s.dispatched[i].message)
    {
      assert s.dispatched[i].exec in s.senders;
    }
    forall i, j | 0 <= i < j < |s.dispatched| ensures s.dispatched[i].message != s.dispatched[j].message {
      assert ProtocolCommits.AutoSent(s, s.dispatched[i].exec, s.dispatched[i].message);
      assert ProtocolCommits.AutoSent(s, s.dispatched[j].exec, s.dispatched[j].message);
    }
  }

  /** A committed auto-send is always enqueued, to be sent after its delay. */
  lemma AutoSendIsEnqueued(s: System, e: ExecId, inputs: Inputs, id: nat, delay: nat)
    requires Enabled(s, Think(e, inputs, id, delay)) && e !in s.commits
    requires Cascade(inputs.bulk, inputs.second).Replied? && PlanOf(inputs).action == AutoSend
    ensures var t := Do(s, Think(e, inputs, id, delay));
            e in t.commits ==>
              && Enabled(t, Enqueue(e))
              && e in Do(t, Enqueue(e)).senders && Do(t, Enqueue(e)).senders[e] == Sender(id, Due(s.clock + delay))
              && Do(t, Enqueue(e)).execs[e].pc == Releasing(Decided(AutoSend))
  {
  }

  /** Nothing is assumed of who else touches messages: any of them can get any status at any time. */
  lemma AnyStatusCanAppear(s: System, id: nat, status: Status)
    requires id in s.store.messages
    ensures exists step ::
              Enabled(s, step)
              && Do(s, step) == s.(store := s.store.(messages := s.store.messages[id := s.store.messages[id].(status := status)]))
  {
    assert Enabled(s, MessageChanges(id, status));
  }

  /** Left alone, a delayed sender dispatches its message if and only if the AI is on in a new or active conversation and
      the message is still queued. */
  lemma SenderDispatchesIff(s: System, e: ExecId)
    requires Enabled(s, SendRead(e)) && s.senders[e].message in s.store.messages
    ensures var sender, conv := s.senders[e], s.store.conv;
            var guard := Do(s, SendRead(e));
            var sends := conv.aiEnabled && conv.state in {New, AiActive} && s.store.messages[sender.message].status == Queued;
            && Enabled(guard, SendCheck(e))
            && (Enabled(Do(guard, SendCheck(e)), SendDispatch(e)) <==> sends)
            && (!sends ==> Do(guard, SendCheck(e)).senders[e].pc == Finished(false))
            && (sends ==>
                  Do(Do(guard, SendCheck(e)), SendDispatch(e)).dispatched ==
                    s.dispatched + [Dispatch(e, sender.message, conv, Latest(s), Queued)])
  {
    GuardsExactly(s.store.conv);
  }
}
