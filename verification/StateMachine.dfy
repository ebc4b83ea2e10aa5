/** The conversation's legal transitions. */
module StateMachine {

  datatype State = New | AiActive | AwaitingApproval | HumanAssigned | AiPaused | Closed

  function AllowedFrom(s: State): set<State> {
    match s
    case New => {AiActive, HumanAssigned, Closed}
    case AiActive => {AwaitingApproval, HumanAssigned, AiPaused, Closed}
    case AwaitingApproval => {AiActive, HumanAssigned, AiPaused, Closed}
    case HumanAssigned => {AiPaused, AiActive, Closed}
    case AiPaused => {AiActive, HumanAssigned, Closed}
    case Closed => {}
  }

  predicate CanTransition(from: State, to: State) { to in AllowedFrom(from) }

  /** Outcome of assert_transition: legal, or the error it raises. */
  datatype Verdict = Legal | ConversationClosed | SameState | IllegalArc

  function AssertTransition(current: State, target: State): Verdict {
    if current == Closed then ConversationClosed
    else if current == target then SameState
    else if !CanTransition(current, target) then IllegalArc
    else Legal
  }

  /** The three error branches reject exactly what the table does not list, each with its own error. */
  lemma LegalIffListed(current: State, target: State)
    ensures AssertTransition(current, target) == Legal <==> CanTransition(current, target)
    ensures CanTransition(current, target) ==> current != target
    ensures AssertTransition(current, target) == ConversationClosed <==> current == Closed
    ensures AssertTransition(current, target) == SameState <==> current == target && current != Closed
  {
  }

  /** The table read by its columns: which states lead to a given one. */
  lemma ArcsInto(current: State)
    ensures !CanTransition(current, New)
    ensures CanTransition(current, AiActive) <==> current in {New, AwaitingApproval, HumanAssigned, AiPaused}
    ensures CanTransition(current, AwaitingApproval) <==> current == AiActive
    ensures CanTransition(current, HumanAssigned) <==> current in {New, AiActive, AwaitingApproval, AiPaused}
    ensures CanTransition(current, AiPaused) <==> current in {AiActive, AwaitingApproval, HumanAssigned}
    ensures CanTransition(current, Closed) <==> current != Closed
  {
  }

  /** The hand-off edge exists from every state that is neither final nor already handed off. */
  lemma HandoffEdge(current: State)
    ensures CanTransition(current, HumanAssigned) <==> current != HumanAssigned && current != Closed
  {
  }

  /** Consecutive states are equal or joined by a legal arc. */
  predicate IsPath(states: seq<State>) {
    forall i :: 0 < i < |states| ==> states[i - 1] == states[i] || CanTransition(states[i - 1], states[i])
  }

  lemma {:induction false} ClosedIsFinal(states: seq<State>, i: nat, j: nat)
    requires IsPath(states) && i <= j < |states| && states[i] == Closed
    ensures states[j] == Closed
  {
    if i < j {
      ClosedIsFinal(states, i, j - 1);
      assert states[j - 1] == states[j] || CanTransition(states[j - 1], states[j]);
    }
  }

  /** Approval is only ever entered from AI handling. */
  lemma {:induction false} ApprovalNeedsAiActive(states: seq<State>, j: nat)
    requires IsPath(states) && j < |states| && states[j] == AwaitingApproval && states[0] != AwaitingApproval
    ensures exists i :: 0 <= i < j && states[i] == AiActive
  {
    if states[j - 1] == AwaitingApproval {
      ApprovalNeedsAiActive(states, j - 1);
    }
  }
}
