# Verification of the CRM's protocols, rollups and arithmetic

A Dafny 4.11 model of the parts of the repository where correctness depends on more than one function: the AI reply
protocol of a conversation, the analytics rollups, the accounting arithmetic, and four smaller cores (phone numbers and
their migration, the send rate limiter, refresh-token rotation, the cached read-only flag).

`dafny verify dfyconfig.toml` checks the whole project.

## What is modelled

**The AI reply protocol.** `StateMachine` is the table of legal conversation transitions. `DecisionEngine` holds the
cascade, the decision rules and the transaction that applies their outcome as functions on rows. `AiProtocol` puts them
into a state machine for one conversation in which any number of request executions (with retries), delayed senders and
people interleave step by step; the clock, the lock key with its expiry, stale snapshots, the row's history, commit
records and dispatches are part of the state. Crashes, provider answers, settings, delays and the order of steps are
arbitrary. A person's operation (pause, resume, assign, approve, reject, close, force, bulk, first inbound message;
`backend/app/modules/conversations/service.py:242-720` and `backend/app/modules/messaging/tasks.py:409-425`) reads the
row in one step and updates it in another, where the update expects the state it read. The exception is a forced
hand-back from a person: it checks the table on its first read, but then clears the lock columns, which holds the row
until the commit, reads the state again and writes over whatever it finds (`service.py:506-535`); since nobody else can
write in between, its second read and its update are one step. A request for approval by a person takes the same arcs
as a bulk move. Six files prove invariants over all runs: `ProtocolLock`, `ProtocolHistory`, `ProtocolCommits`,
`ProtocolSends`, `ProtocolRetry` and `ProtocolFallback`. `Orchestrator` is the same code in its own imperative form: sessions, a Redis key,
branches that write into an open transaction, rollback, and a queue. Its methods are proved against the decision
functions for arbitrary commits by others in between, and its outcomes are shown to be those of the protocol's steps.

**Analytics.** `Rollups` computes one day's rows from the source tables with grouped sums (`Grouping`), `Attribution`
treats last-touch attribution with the database's freedom to choose among ties (`AttributionTies` has the exact range of
what that can change), `RollupRows` says column by column what each row counts and sums, `RollupDays` what the tables
then hold for a day, `RollupCosts` says when the rounded cost columns of campaigns and templates agree (`RoundedSums`),
and `RollupStore` has the four tables as a class with the upserts, the nightly job and the backfill. Amounts have the
precision of the migrated schema: source costs six places (`backend/alembic/versions/0001_initial_schema.py:315`,
`:666`), a contact's revenue four (`backend/alembic/versions/erp0_d_contacts_finance.py:23-28`; the ORM model at
`backend/app/modules/contacts/models.py:49-51` still declares two), rollup columns four and their revenue two.

**Accounting.** `Money` is half-up quantisation and summation in Python's 28-digit decimal context. `Ledger` is the
closing check of the demo ledger and the effect of reversing an entry on what it reports.

**Smaller cores.** `Phone` and `PhoneMigration`, `RateLimiter`, `RefreshTokens` and `ReadOnlyCache`: each has the pure
specification, its laws over all inputs or all runs, and a class or method in the source's own form proved against it.

## Findings

Where the code does not do what its comments say, the model follows the code and states the exact condition.

- The rounding tolerance of 0.0005 covers rounding line by line for entries of at most twelve lines and for no larger
  number (`Money.ToleranceThreshold`).
- The sender's guard is not atomic with its dispatch: a person put in charge right after the guard's read does not stop
  the message (`ProtocolHistory.GuardIsNotAtomic`). Assigning a person does not switch AI off either; only the state
  keeps later guards shut.
- The lock excludes exactly as long as holders finish within 180 s: an acquire leaves two holders if and only if one is
  past its time (`ProtocolLock.AcquireBreaksExclusionIff`), and a late release deletes somebody else's key
  (`ProtocolLock.SlowHolderBreaksExclusion`).
- The table is not followed in one race: a forced hand-back that is overtaken by a close reopens the conversation, with
  AI on if it hands back to AI. This is the only way to leave CLOSED (`ProtocolHistory.StatesFollowTheTable`,
  `ProtocolHistory.CloseIsOvertaken`).
- Closing does not consult the transition table, so a closed conversation can be closed again
  (`ProtocolHistory.ClosedAgainExactly`, `ProtocolHistory.ClosedCanBeClosedAgain`).
- The kill switch and the test numbers share one try block: if only the test numbers cannot be read, a switch read as on
  blocks everybody, test numbers included (`DecisionEngine.UnreadableListKeepsSwitch`).
- An inferred opt-out is lost when somebody changes the conversation's state while the answer is computed: the refused
  move rolls the contact's mark back with everything else (`DecisionEngine.OptOutIsLostIff`).
- Each rollup rounds its own cost sums to four places, while costs are recorded to six. A template's message cost, AI
  spend and total cost are therefore the sums over its campaigns for all costs if and only if at most one campaign uses
  it (`RollupCosts.CostsReconcileIff`); otherwise they are off by a bounded number of units (`RollupCosts.CostsWithin`),
  and by none for costs of four places (`RollupCosts.CostsReconcileWhen`).
- A message cost or AI spend below 0.00005 counts as zero, so ROI can be NULL although something was spent
  (`Rollups.CampaignRowInRange`).
- Contacts hold revenue to four places and the revenue column to two. The rows can lose or gain up to half a cent each,
  and do so only for revenue that is not in whole cents (`Attribution.RevenueConserved`, `Attribution.RevenueExactIff`,
  `Attribution.HalfCentsAreNotConserved`).
- The attribution window has no effect on any revenue (`Attribution.WindowIsIrrelevant`), a contact is credited
  anew on every day answered, although the comment says that revenue belongs to one day
  (`Attribution.RevenueCountedPerTouchDay`), and equally late touches make the credited revenue depend on the
  database's choice (`Attribution.CreditDeterminedIffNoTies`), which the rounded column can hide only below a cent
  (`Attribution.DeterminedIffNoTies`, `Attribution.SmallTieIsHidden`; `AttributionTies.DeterminedIffRangesRoundAlike` is
  the exact condition).
- Re-running a day is idempotent but does not delete rows whose source has gone (`RollupStore.FreshIffNoStaleKeys`).
- Reversing a posted entry moves the posted-only nets by twice the entry's contribution, since the original leaves the
  posted set and its mirror enters it (`Ledger.ReversalShiftsTwice`).
- The balance-sheet row of the closing check never fails; a clean report implies a sheet that ties all the same
  (`Ledger.CleanReportTies`).

## Model

| member | source | states |
|---|---|---|
| StateMachine.LegalIffListed | backend/app/modules/conversations/state_machine.py:88-123 | assert_transition accepts exactly the arcs of the table, although two of its three error branches come before the lookup, and raises each error exactly in its own case; no listed arc is a self-loop |
| StateMachine.ArcsInto | backend/app/modules/conversations/state_machine.py:19-63 | the table read by its columns: exactly which states lead to each state |
| StateMachine.HandoffEdge | backend/app/modules/conversations/state_machine.py:19-58 | the arc to HUMAN_ASSIGNED exists from every state except HUMAN_ASSIGNED and CLOSED, so the AI fallback never meets an illegal arc |
| StateMachine.ClosedIsFinal | backend/app/modules/conversations/state_machine.py:57-61 | on every path of legal arcs, nothing follows CLOSED |
| StateMachine.ApprovalNeedsAiActive | backend/app/modules/conversations/state_machine.py:27-34 | on every path AWAITING_APPROVAL is preceded by AI_ACTIVE |
| DecisionEngine.NonEmpty | backend/app/modules/ai/service.py:614-617 | keeps exactly the non-empty tag names |
| DecisionEngine.NonEmptyTagByTag | backend/app/modules/ai/service.py:614-617 | and keeps their order and repetitions: the filter works tag by tag |
| DecisionEngine.CascadeExactly | backend/app/modules/ai/service.py:324-357 | the bulk tier's answer stands if and only if it asks for neither escalation nor approval and its confidence is below 0.50 or above 0.85; a failed first call is the answer, and otherwise the second call is |
| DecisionEngine.BlankIffStripsToNothing | backend/app/modules/ai/service.py:702-702 | the blank replies are exactly those that strip() empties |
| DecisionEngine.FlaggedBulkIsNeverActedOn | backend/app/modules/ai/service.py:321-357 | a bulk draft that asked for escalation or approval, or had a confidence from 0.50 to 0.85, never influences what is done: the outcome is a function of the second tier alone |
| DecisionEngine.AutoSendExactly | backend/app/modules/ai/service.py:572-761 | an auto-send is committed if and only if the authoritative answer carries no flag, opt-out included, is strictly above 0.85 and non-blank, neither the response nor the auto-send toggle was read as off (an unreadable one counts as on), and the contact row is there; after a flagged bulk draft the queued text is the second tier's |
| DecisionEngine.DecisionExactly | backend/app/modules/ai/service.py:559-795 | every committed decision, branch by branch, with all flags, toggles and thresholds written out: which of the four actions is taken and why, the state and AI switch it leaves, the message with its text and status, the event, the do-not-contact mark and the tags in order |
| DecisionEngine.CommittedExactly | backend/app/modules/ai/service.py:907-927 | when a decision is committed and with which error it is rolled back: exactly when it must move a conversation along a missing arc or after somebody changed it, or the contact is gone |
| DecisionEngine.OptOutIsHonoured | backend/app/modules/ai/service.py:572-593 | every committed decision honours an inferred opt-out and only that: the contact is marked, AI goes off, no message and no tag is written; with the contact row gone the required foreign keys let nothing be committed |
| DecisionEngine.OptOutIsLostIff | backend/app/modules/ai/service.py:572-588 | with the contact present and a conversation that the guard lets through, an inferred opt-out is rolled back, the contact's mark included, if and only if the conversation changed state between the read and the commit |
| DecisionEngine.UnreadableListKeepsSwitch | backend/app/modules/ai/service.py:142-157 | when only the list of test numbers cannot be read, exactly a switch that was read as on blocks, listed test numbers included |
| DecisionEngine.DraftExactly | backend/app/modules/ai/service.py:572-795 | when exactly a message is written, with which text and status, which action moves to which state, and that AI is switched off exactly on escalation |
| DecisionEngine.TagsExactly | backend/app/modules/ai/service.py:612-625 | which tags are suggested, the same on every reply branch |
| DecisionEngine.StaleMoveIsSafe | backend/app/modules/ai/service.py:907-927 | a compare-and-set built from a stale snapshot either has no effect or takes an arc legal from the row's actual state; it is refused exactly when the arc is not listed or the row has changed |
| DecisionEngine.SuggestionsReadBack | backend/app/modules/ai/service.py:615-625 | reading back an execution's suggestion rows gives exactly its tags, in order and once each, and leaves every other execution's alone |
| DecisionEngine.FallbackHandsOff | backend/app/modules/ai/service.py:258-300 | the fallback hands off with AI off from every other state that did not change, does nothing exactly from HUMAN_ASSIGNED and CLOSED, raises exactly when another state changed under it, and only takes listed arcs |
| DecisionEngine.DecisionIsAtomic | backend/app/modules/ai/service.py:205-256 | every row of a decision is committed or none; an approval's draft comes with a legal move into AWAITING_APPROVAL unless the snapshot already read that state |
| AiProtocol.OtherExecs | backend/app/modules/ai/tasks.py:75-199 | a step of one execution, sender or person leaves every other execution's record alone; new executions start waiting |
| AiProtocol.GuardsExactly | backend/app/modules/ai/tasks.py:129-135 | which states the two guards let through: the request's NEW, AI_ACTIVE and AWAITING_APPROVAL, the sender's the first two, each with AI on |
| AiProtocol.ActingExec | backend/app/modules/ai/tasks.py:75-178 | how each step may change the program counter and the error and retry marks of the execution it runs |
| ProtocolLock.StepKeepsExclusive | backend/app/modules/ai/tasks.py:57-66 | mutual exclusion is inductive over all steps while holders are timely |
| ProtocolLock.KeyAfter | backend/app/modules/ai/tasks.py:57-66 | the key changes only on a successful acquire (180 s) and on a release, which deletes whatever is there |
| ProtocolLock.MutualExclusion | backend/app/modules/ai/tasks.py:92-105 | if every holder stays within 180 s of its acquire, at most one execution is ever between acquire and release, with unconditional deletes, retries and crashes |
| ProtocolLock.KeyNeverOutlivesTtl | backend/app/modules/ai/tasks.py:50-66 | with no hypothesis at all, the key is free 180 s after the last successful acquire |
| ProtocolLock.AcquireBreaksExclusionIff | backend/app/modules/ai/tasks.py:57-66 | the hypothesis is exact: from an exclusive state an acquire leaves two holders if and only if some holder is past its 180 s |
| ProtocolLock.NewcomerJoinsIff | backend/app/modules/ai/tasks.py:57-66 | a new request that arrives and acquires joins a holder if and only if that holder has run out of time |
| ProtocolLock.SlowHolderBreaksExclusion | backend/app/modules/ai/tasks.py:64-66 | and it matters: a run in which one slow holder's release lets two others hold at once |
| ProtocolHistory.HistoryAfter | backend/app/modules/conversations/service.py:461-536 | every step leaves the row alone or adds one change its author may make: a worker or person takes a listed arc from the state read, a close may close again, and a forced hand-back writes over what it reads again |
| ProtocolHistory.OperationsByState | backend/app/modules/conversations/service.py:242-720 | what a person can ask for in each state of the conversation |
| ProtocolHistory.PersonCommitsExactly | backend/app/modules/conversations/service.py:363-536 | what a person's update leaves: nothing if the state changed since it was read, except for a forced hand-back; otherwise the state asked for, AI on only by a forced hand-back to AI, and an approval queues a waiting draft whenever there is one |
| ProtocolHistory.ChangeFollows | backend/app/modules/conversations/service.py:506-535 | such a change is an arc of the table, or no change of state, if and only if it is not a forced hand-back that found CLOSED and opened it, and it switches AI on only as a forced hand-back |
| ProtocolHistory.HandBackFollowsTableIff | backend/app/modules/conversations/service.py:506-535 | one forced hand-back always writes its target; that follows the table if and only if the conversation was not closed in the meantime or is to be closed |
| ProtocolHistory.CloseIsOvertaken | backend/app/modules/conversations/service.py:506-535 | from every state with a person in charge, a close that overtakes a forced hand-back is undone by it |
| ProtocolHistory.ClosedIsReopened | backend/app/modules/conversations/service.py:506-535 | the exception occurs: a run from the start goes from CLOSED to AI_ACTIVE with AI on |
| ProtocolHistory.ClosedUntilReopened | backend/app/modules/conversations/service.py:506-535 | CLOSED is left in no other way |
| ProtocolHistory.ClosedAgainExactly | backend/app/modules/conversations/service.py:461-484 | apart from forced hand-backs, a person's change goes from CLOSED to CLOSED if and only if it is a close that read CLOSED |
| ProtocolHistory.ClosedCanBeClosedAgain | backend/app/modules/conversations/service.py:461-484 | from every state with a closed conversation a person can close it again |
| ProtocolHistory.StatesFollowTheTable | backend/app/modules/conversations/service.py:506-549 | for any number of workers, senders and people with stale reads, the states the row goes through form a path of the table if and only if no forced hand-back to a state other than CLOSED found it closed |
| ProtocolHistory.OnlyPeopleSwitchAiOn | backend/app/modules/conversations/service.py:486-536 | between an AI-off and a later AI-on value lies a forced hand-back to AI that was asked for while a person was in charge, whatever state other than NEW it then replaced |
| ProtocolHistory.AiStepsNeverEnableAi | backend/app/modules/ai/service.py:295-300 | no AI-side step takes the row from AI off to AI on; only a person's forced transition does |
| ProtocolHistory.DispatchWellGuarded | backend/app/modules/ai/tasks.py:225-262 | in every state that satisfies the invariant, each dispatch passed a guard that read AI on, NEW or AI_ACTIVE and a QUEUED message, and any earlier AI-off value had been released by a person before that read |
| ProtocolHistory.DispatchesAreGuarded | backend/app/modules/ai/tasks.py:225-262 | the same over every interleaving from the start |
| ProtocolHistory.GuardIsNotAtomic | backend/app/modules/ai/tasks.py:225-262 | but not at the dispatch itself: from every state in which a sender has just read an open conversation, a person can take over and the message still goes out |
| ProtocolCommits.DecisionWrites | backend/app/modules/ai/service.py:205-256 | the one step that commits a decision writes its event, suggestions, message and row change together |
| ProtocolCommits.OtherStepsWrite | backend/app/modules/ai/service.py:187-203 | no other step writes any of them or changes a message text, except the one error event of a failed call |
| ProtocolCommits.StepKeepsInv | backend/app/modules/ai/service.py:205-256 | ownership of rows, events and senders by committed decisions is inductive over all steps |
| ProtocolCommits.RowsBelongToCommits | backend/app/modules/ai/service.py:205-256 | in every run each AI message belongs to exactly one committed decision, the stored suggestions of an execution are exactly its decision's tags, in order and once each, and it logged exactly one success event; an execution without a commit left none of these |
| ProtocolCommits.ApprovalsAreBacked | backend/app/modules/ai/service.py:672-695 | in every run a committed approval has its draft and a legal move into AWAITING_APPROVAL in the same transaction, or read that state already |
| ProtocolCommits.SentTextIsAuthoritative | backend/app/modules/ai/tasks.py:180-186 | every message a delayed sender may dispatch carries the authoritative tier's text (or the contact card) and that tier met the auto-send condition, without an opt-out and past the kill switch |
| ProtocolRetry.LadderStep | backend/app/modules/ai/tasks.py:146-158 | the retry ladder invariant is kept by every step |
| ProtocolRetry.CountdownsFollowLadder | backend/app/modules/ai/tasks.py:47-48 | a chain's countdowns are a prefix of the ladder |
| ProtocolRetry.RetryChain | backend/app/modules/ai/tasks.py:142-178 | whatever the provider does, a request makes at most four attempts with countdowns a prefix of 10, 30, 90, and only its latest execution can be the one that ends it |
| ProtocolRetry.OneTerminalOutcome | backend/app/modules/ai/tasks.py:142-178 | once its executions are over, a request has one outcome, that of its latest execution, all earlier ones having re-queued themselves; only a crash leaves it without an answer |
| ProtocolRetry.NeverStuck | backend/app/modules/ai/tasks.py:75-178 | an execution that is not over can always take a step, at once or when its countdown has passed |
| ProtocolRetry.FailuresAreAccountedFor | backend/app/modules/ai/service.py:187-203 | exactly one error event per failed call, no decision beside it, and a finished failed execution re-queued itself, reached the fallback or ended in an exception |
| ProtocolRetry.RetryOrFallback | backend/app/modules/ai/tasks.py:142-178 | after a failed call exactly one way on is open: a retry after 10, 30 or 90 seconds if the failure is retryable and this was not the fourth attempt, else the fallback |
| ProtocolRetry.GuardLetsThroughIff | backend/app/modules/ai/tasks.py:118-140 | a request goes on from its guard if and only if AI is on in a new, active or awaiting conversation |
| ProtocolRetry.ExhaustionHandsOff | backend/app/modules/ai/tasks.py:168-178 | the fallback step leaves HUMAN_ASSIGNED with AI off whenever the arc is listed and nothing changed in between |
| ProtocolFallback.StepKeepsInv | backend/app/modules/ai/service.py:258-300 | what the history holds of an execution's own changes fits its outcome, kept by every step |
| ProtocolFallback.FallbackOverRuns | backend/app/modules/ai/tasks.py:160-178 | in every run a fallback that handed over wrote exactly one change of the row, HUMAN_ASSIGNED with AI off; one that did not wrote none and had read a state the row really had, HUMAN_ASSIGNED or CLOSED |
| ProtocolRetry.ChainDrops | backend/app/modules/ai/tasks.py:142-178 | every step of an execution, a started retry included, lowers its chain's bounded budget |
| ProtocolRetry.BudgetAfter | backend/app/modules/ai/tasks.py:142-178 | no step raises a request's budget, arrival included, and each step that serves it lowers it |
| ProtocolRetry.RequestsTerminate | backend/app/modules/ai/tasks.py:142-178 | in every run at most 28 steps serve any one request, its retries included |
| ProtocolRetry.EveryRequestCanFinish | backend/app/modules/ai/tasks.py:75-178 | and every run can be continued until all executions of the request are over |
| ProtocolSends.StepKeepsOnce | backend/app/modules/ai/tasks.py:208-262 | each dispatch is the one dispatch of a finished sender, kept by every step |
| ProtocolSends.AtMostOneDispatch | backend/app/modules/ai/tasks.py:180-262 | over every interleaving, with retries and crashes, delayed senders hand each message over at most once, and only one committed for auto-send |
| ProtocolSends.AutoSendIsEnqueued | backend/app/modules/ai/tasks.py:180-186 | a committed auto-send is always enqueued with its delay |
| ProtocolSends.SenderDispatchesIff | backend/app/modules/ai/tasks.py:225-262 | left alone, a delayed sender dispatches its message if and only if AI is on, the conversation is new or active and the message is still queued |
| Orchestrator.Redis.SetNx | backend/app/modules/ai/tasks.py:57-61 | SET NX EX: acquired exactly when the key is absent or expired, and then it lasts 180 s |
| Orchestrator.Redis.Delete | backend/app/modules/ai/tasks.py:64-66 | unconditional delete |
| Orchestrator.AiOrchestrator.constructor | backend/app/modules/ai/service.py:131-137 | the session keeps the row as it was loaded |
| Orchestrator.AiOrchestrator.CascadeRoute | backend/app/modules/ai/service.py:311-359 | one call if the first failed or its answer is unflagged and outside 0.50 to 0.85, and then that answer; else two calls and the second's answer |
| Orchestrator.AiOrchestrator.CreateDraftMessage | backend/app/modules/ai/service.py:840-874 | adds exactly one message, with the card text when a contact card is sent |
| Orchestrator.AiOrchestrator.SuggestTags | backend/app/modules/ai/service.py:614-625 | the loop adds one row per non-empty tag, in order |
| Orchestrator.AiOrchestrator.Transition | backend/app/modules/ai/service.py:907-927 | equals the compare-and-set function, with its two errors and without effect when refused |
| Orchestrator.AiOrchestrator.SwitchAiOff | backend/app/modules/ai/service.py:584-588 | changes ai_enabled and nothing else |
| Orchestrator.AiOrchestrator.ApplyRules | backend/app/modules/ai/service.py:559-795 | the branching writes exactly the rows of the decision function's plan, or reports the refused move |
| Orchestrator.AiOrchestrator.AskForApproval | backend/app/modules/ai/service.py:672-686 | draft first, then the move; both or an error |
| Orchestrator.AiOrchestrator.ProcessInbound | backend/app/modules/ai/service.py:118-256 | kill switch, error event before re-raise, all-or-nothing commit: the committed rows are those of the atomic decision function |
| Orchestrator.AiOrchestrator.TakeOver | backend/app/modules/ai/service.py:258-300 | the fallback with other actors committing between its read and its update |
| Orchestrator.Worker.RequestAiReply | backend/app/modules/ai/tasks.py:75-105 | without the key nothing happens; with it, the key is gone on every way out |
| Orchestrator.Worker.RunAiRequest | backend/app/modules/ai/tasks.py:108-199 | guard, decision, retry or fallback and enqueue, for any interference in between that only appends to the event log; on the fallback path exactly one error event of the failed call stays committed |
| Orchestrator.Worker.SendAiReply | backend/app/modules/ai/tasks.py:225-262 | dispatches exactly once if what it read lets it through, else not at all, with others committing between its two loads |
| Orchestrator.QueuesAtMostOneJob | backend/app/modules/ai/tasks.py:142-186 | a request queues at most one task: the sender of a message committed as QUEUED, or its own next attempt |
| Orchestrator.RequestEndsExactly | backend/app/modules/ai/tasks.py:142-199 | how a request that passed its guard ends, with the literal delays: which outcome, which queued task, and what the fallback leaves of the conversation |
| Orchestrator.RequestMovesLegally | backend/app/modules/ai/tasks.py:108-178 | a request never switches AI on and moves the state only along a listed arc from what others left |
| Orchestrator.TaskIsThink | backend/app/modules/ai/tasks.py:142-186 | the imperative code refines the protocol: same rows, same outcome, same sender as the protocol's Think and Enqueue steps |
| Orchestrator.TaskIsRetry | backend/app/modules/ai/tasks.py:146-158 | its retry is the protocol's Think and Retry steps |
| Orchestrator.TaskIsFallback | backend/app/modules/ai/tasks.py:160-178 | its fallback is the protocol's Think, Fallback and Handover with interference before each: the same rows and outcome, and one error event |
| Orchestrator.TaskIsSend | backend/app/modules/ai/tasks.py:225-262 | the sender is the protocol's SendRead, SendCheck and SendDispatch |
| Orchestrator.FindUnreplied | backend/app/modules/ai/tasks.py:370-408 | returns a latest inbound text if and only if some inbound message has no later outbound one |
| Rollups.RangeIsDateCast | backend/app/modules/analytics/aggregator.py:133-133 | selecting a day by half-open range and by date cast is the same |
| RollupRows.GlobalExactly | backend/app/modules/analytics/aggregator.py:28-83 | every column of the global row, read off the source rows: the number of messages and events with the direction, day and statuses it counts, the once-rounded cost sums, the totals and the capped rate |
| RollupRows.HourExactly | backend/app/modules/analytics/aggregator.py:386-417 | an hourly row counts exactly the messages whose time lies in that hour |
| RollupRows.HoursExactly | backend/app/modules/analytics/aggregator.py:386-401 | there is a row for an hour if and only if a message falls into it |
| RollupRows.CampaignExactly | backend/app/modules/analytics/aggregator.py:117-223 | every column of a campaign row likewise, with the joins as nested sums over recipients, their messages and their conversations' AI events, and ROI as the nearest capped quotient of the stored revenue and cost |
| RollupRows.CampaignsExactly | backend/app/modules/analytics/aggregator.py:136-136 | there is a row for a campaign if and only if one of its recipients was sent to that day |
| RollupRows.TemplateExactly | backend/app/modules/analytics/aggregator.py:282-366 | every column of a template row likewise |
| RollupRows.TemplatesExactly | backend/app/modules/analytics/aggregator.py:282-312 | there is a row for a template if and only if a recipient of one of its campaigns was sent to that day |
| RollupDays.CampaignRowsExactly | backend/app/modules/analytics/aggregator.py:117-227 | the campaign upsert inserts exactly one row per campaign sent that day, with the revenue its contacts' last touches credit to it |
| RollupDays.StoredCountsAddUp | backend/app/modules/analytics/aggregator.py:117-227 | over the rows stored for a day, sent, delivered and responded add up to the numbers of recipients they count |
| RollupDays.StoredRevenueAddsUp | backend/app/modules/analytics/aggregator.py:163-227 | over the rows stored for a day, revenue adds up to that of the contacts who answered that day, within half a cent per row and exactly for whole cents |
| Rollups.SendsExactly | backend/app/modules/analytics/aggregator.py:142-143 | the join on message id holds each pair of matching rows exactly once for each way to pick the two, and nothing else |
| Rollups.SpendsExactly | backend/app/modules/analytics/aggregator.py:156-158 | the join on conversation id likewise |
| Rollups.HoursReconcile | backend/app/modules/analytics/aggregator.py:389-401 | hourly sent adds up to the day's sent plus failed messages, hourly received to the day's received |
| Rollups.HoursAreClockHours | backend/app/modules/analytics/aggregator.py:392-392 | every hourly row is for an hour from 0 to 23 |
| Rollups.DeliveredWithinSent | backend/app/modules/analytics/aggregator.py:47-54 | the global delivered count never exceeds the sent count |
| Rollups.TemplateCountsReconcile | backend/app/modules/analytics/aggregator.py:282-312 | a template's sent, delivered and responded counts are the sums over the rows of the campaigns using it, and campaigns_used counts them |
| RollupCosts.FineCosts | backend/app/modules/analytics/aggregator.py:314-366 | before any rounding a template's message cost and AI spend are the sums over its campaigns |
| RollupCosts.MetaCostReconciles | backend/app/modules/analytics/aggregator.py:314-366 | the Meta cost column adds up exactly, and the total cost column is off by exactly what the message cost and AI spend columns are off |
| RollupCosts.CostsWithin | backend/app/modules/analytics/aggregator.py:314-366 | since each row casts its own sum to four places, the campaign rows of k campaigns are within (k + 1) / 2 units of the fourth place of the template row per rounded column, and within k + 1 in total cost |
| RollupCosts.CostsReconcileWhen | backend/app/modules/analytics/aggregator.py:314-366 | they agree whenever every source cost has at most four places, or at most one campaign uses the template |
| RollupCosts.TwoCampaignsDisagree | backend/app/modules/ai/service.py:942-957 | costs are recorded to six places: two campaigns with one AI event of 0.001260 each hold 0.0013 twice and their template 0.0025, also among any number of further campaigns |
| RollupCosts.CostsReconcileIff | backend/app/modules/analytics/aggregator.py:314-366 | for all costs the campaign rows add up to the template row if and only if at most one campaign uses the template that day |
| Rollups.RateIsARatio | backend/app/modules/analytics/aggregator.py:199-204 | a rate is in [0, 1], is the nearest four-place value of the ratio below 1, and is 1 from there on |
| Rollups.FinerRoundingIsHarmless | backend/app/modules/analytics/aggregator.py:199-204 | rounding the quotient first to a finer scale, as the division does, changes no rate while that scale splits a four-place unit into more parts than the denominator |
| Rollups.RoiFits | backend/app/modules/analytics/aggregator.py:213-223 | ROI is NULL exactly at zero cost, otherwise in [0, 999999.9999] and the nearest four-place quotient below the cap |
| Rollups.RoiSurvivesFinerRounding | backend/app/modules/analytics/aggregator.py:213-223 | rounding the quotient first to a finer scale changes no ROI below the cap while that scale splits a four-place unit into more parts than the cost has units |
| Rollups.CampaignRowInRange | backend/app/modules/analytics/aggregator.py:141-223 | every stored campaign row meets both; ROI is NULL exactly when nothing was delivered and both six-place cost sums are below 0.00005, because the zero test reads the sums after their cast to four places |
| Attribution.LatestIsLastTouch | backend/app/modules/analytics/aggregator.py:168-178 | keeping the first latest row per contact is a valid DISTINCT ON choice |
| Attribution.PickLastTouch | backend/app/modules/analytics/aggregator.py:168-178 | the scan returns one latest candidate per contact |
| Attribution.CreditedExactly | backend/app/modules/analytics/aggregator.py:168-187 | a day credits a contact's revenue if and only if the contact answered a message of that day, to the one campaign of the latest such touch, which has a row for the day |
| Attribution.CreditConserved | backend/app/modules/analytics/aggregator.py:168-187 | before the cast to cents, what the campaigns with a row are credited adds up exactly to the revenue of the contacts who answered that day |
| Attribution.RevenueExactIff | backend/app/modules/analytics/aggregator.py:182-182 | a row's cast loses nothing if and only if its credited revenue is in whole cents |
| Attribution.RevenueConserved | backend/app/modules/analytics/aggregator.py:182-227 | the revenue column adds up to that total within half a cent per campaign row, and exactly when every campaign's credited revenue is in whole cents |
| Attribution.WholeCentsAreConserved | backend/app/modules/analytics/aggregator.py:182-227 | so it is exact when every contact's revenue is in whole cents |
| Attribution.HalfCentsAreNotConserved | backend/alembic/versions/erp0_d_contacts_finance.py:23-28 | the contacts' column has four places: two contacts with 0.0050 credited to two campaigns give two rows of 0.01 |
| Attribution.RevenueCountedPerTouchDay | backend/app/modules/analytics/aggregator.py:163-187 | over any list of days a contact's revenue is credited once per day answered, not once |
| Attribution.StoredPerTouchDay | backend/app/modules/analytics/aggregator.py:182-227 | and so do the stored revenue columns of those days add up, within half a cent per row, exactly so for revenue in whole cents |
| Attribution.CreditDeterminedIffNoTies | backend/app/modules/analytics/aggregator.py:169-177 | what is credited is determined by the source rows if and only if no contact with revenue has two equally late answered touches of different campaigns |
| Attribution.DeterminedIffNoTies | backend/app/modules/analytics/aggregator.py:169-182 | without such ties the revenue column is determined, and if every contact's revenue is zero or at least one cent then only without them |
| AttributionTies.CreditWithin | backend/app/modules/analytics/aggregator.py:168-187 | whatever the database chooses, a campaign is credited between a least and a most amount computed from the source rows |
| AttributionTies.ExtremesAreReached | backend/app/modules/analytics/aggregator.py:168-187 | both amounts are reached by a choice it may make |
| AttributionTies.DeterminedIffRangesRoundAlike | backend/app/modules/analytics/aggregator.py:168-187 | so the revenue column is determined by the source rows if and only if for every campaign the two round to the same cents |
| Attribution.SmallTieIsHidden | backend/app/modules/analytics/aggregator.py:169-182 | a tie over less than a cent can leave the column determined |
| Attribution.WindowIsIrrelevant | backend/app/modules/analytics/aggregator.py:175-175 | replacing the attribution window by the day alone changes neither the credit nor the stored revenue |
| RollupStore.BackfillAt | backend/app/modules/analytics/aggregator.py:91-107 | what a sequence of daily upserts leaves under each key |
| RollupStore.BackfillOrderIrrelevant | backend/app/modules/analytics/tasks.py:70-96 | runs over the same set of days, in any order and with any repetition, leave the same table |
| RollupStore.BackfillIdempotent | backend/app/modules/analytics/aggregator.py:228-243 | upserting a day again changes nothing, whatever ran before |
| RollupStore.FreshIffNoStaleKeys | backend/app/modules/analytics/aggregator.py:357-383 | after a run the day's rows are the freshly computed ones if and only if no earlier key of the day has lost its source rows |
| RollupStore.RowsAreDated | backend/app/modules/analytics/aggregator.py:188-197 | each upsert only touches keys of its target date |
| RollupStore.CampaignRowsDetermined | backend/app/modules/analytics/aggregator.py:168-187 | without ties the campaign rows do not depend on the database's choice |
| RollupStore.CampaignRunDetermined | backend/app/modules/analytics/tasks.py:88-96 | without ties a range of campaign runs is a plain backfill |
| RollupStore.OtherDatesKept | backend/app/modules/analytics/aggregator.py:228-243 | campaign rows of other dates survive any runs, ties or not |
| RollupStore.RangedIsBackfilled | backend/app/modules/analytics/tasks.py:87-96 | the loop over a date range is a backfill of its list of days |
| RollupStore.RollupTables.UpsertGlobalDaily | backend/app/modules/analytics/aggregator.py:248-257 | overwrites the day's row and nothing else; afterwards the table holds the row the source tables call for |
| RollupStore.RollupTables.UpsertCampaignDaily | backend/app/modules/analytics/aggregator.py:260-275 | upserts the day's campaign rows and reports their number; afterwards the table holds, for every campaign sent that day, the row with the revenue some valid choice of last touches credits to it |
| RollupStore.RollupTables.UpsertTemplateDaily | backend/app/modules/analytics/aggregator.py:424-438 | upserts the day's template rows and reports their number; afterwards the table holds the row of every template used that day |
| RollupStore.RollupTables.UpsertHourlyMetrics | backend/app/modules/analytics/aggregator.py:441-451 | upserts the day's hourly rows and reports their number; afterwards the table holds the row of every hour with a message |
| RollupStore.RollupTables.AggregateDay | backend/app/modules/analytics/tasks.py:48-53 | one day's four upserts |
| RollupStore.RollupTables.AggregateNext | backend/app/modules/analytics/tasks.py:89-96 | one more day extends the range |
| RollupStore.RollupTables.Backfill | backend/app/modules/analytics/tasks.py:71-96 | rejects an empty range without effect, else runs every day of it once; afterwards every day of the range has its rows |
| RollupStore.BackfillsAgree | backend/app/modules/analytics/tasks.py:70-96 | without ties two backfills of a range from the same tables end the same |
| RollupStore.DayRunHolds | backend/app/modules/analytics/tasks.py:48-53 | after the nightly job all four tables hold the day's rows, column by column |
| RollupStore.RangeRunHolds | backend/app/modules/analytics/tasks.py:70-96 | after a backfill they hold the rows of every day of the range |
| RollupStore.SecondBackfillChangesNothing | backend/app/modules/analytics/tasks.py:70-96 | without ties a second backfill leaves all four tables as the first did |
| Money.HalfUpNearest | backend/app/core/money.py:34-34 | ROUND_HALF_UP is the nearest value with ties away from zero (roundTiesToAway, section 4.3.1 of IEEE 754-2008) |
| Money.MoneyWithinHalfUnit | backend/app/core/money.py:22-34 | the result has the requested places and is within half a unit of the input |
| Money.MoneyErrorsExactly | backend/app/core/money.py:22-34 | money() refuses exactly text that is no number, infinities, and numbers whose result would need more than 28 digits; NaN passes through |
| Money.MoneyIdempotent | backend/app/core/money.py:22-34 | quantising twice is quantising once, errors excluded |
| Money.MoneyOdd | backend/app/core/money.py:22-34 | negation commutes with it, errors included |
| Money.MoneyMonotone | backend/app/core/money.py:22-34 | it keeps order across operands of different scale |
| Money.MoneySum | backend/app/core/money.py:42-51 | the loop equals quantising the running sum in the 28-digit context, with NaN and infinite terms and the exception that opposite infinities raise |
| Money.RunningFiniteIff | backend/app/core/money.py:48-50 | the running sum is a number if and only if every term is |
| Money.SpecialTotals | backend/app/core/money.py:48-50 | with special terms: opposite infinities before any NaN raise, a NaN stays, and infinities of one sign are the total |
| Money.ContextRounds | backend/app/core/money.py:48-50 | an addition outside the context keeps 28 significant digits, rounded half to even |
| Money.RunningExact | backend/app/core/money.py:48-50 | while every prefix stays in the context no addition rounds |
| Money.MoneySumExact | backend/app/core/money.py:42-51 | then the result is the exact sum |
| Money.MoneySumAnyScale | backend/app/core/money.py:42-51 | for terms of any mixture of scales, while the exact sums fit the context, the result is the exact sum rounded once |
| Money.ColumnsStayInContext | backend/app/core/money.py:3-5 | up to 10^9 NUMERIC(19,4) terms stay in the context |
| Money.MoneySumOrderIndependent | backend/app/core/money.py:42-51 | such sums do not depend on order |
| Money.MoneySumSplits | backend/app/core/money.py:42-51 | and split over concatenation |
| Money.ErrorBound | backend/app/core/money.py:19-34 | rounding each line moves a total by at most half a unit per line |
| Money.TwelveLinesFit | backend/app/core/money.py:17-19 | a balanced entry of at most twelve lines stays within ROUNDING_TOLERANCE after rounding each line |
| Money.ThirteenLinesOverflow | backend/app/core/money.py:17-19 | for every larger number of lines some balanced entry does not |
| Money.ToleranceThreshold | backend/app/core/money.py:17-19 | so the tolerance suffices if and only if there are at most twelve lines |
| Money.RoundedIsMoney | backend/app/core/money.py:22-34 | the rounding of those lines is money itself |
| Ledger.BalancedEntriesMakeZeroTrialBalance | backend/scripts/seed_demo.py:1060-1067 | if every posted entry balances, the trial balance is zero |
| Ledger.BalanceSheetGap | backend/scripts/seed_demo.py:1069-1091 | assets less liabilities, equity and derived earnings is exactly the trial balance, for any lines over the six types |
| Ledger.AccountingIdentity | backend/scripts/seed_demo.py:1060-1091 | so balanced posted entries make the balance sheet tie with no closing entry |
| Ledger.Report.constructor | backend/scripts/seed_demo.py:1021-1024 | a report starts empty and clean |
| Ledger.Report.Add | backend/scripts/seed_demo.py:1057-1058 | appends a passing row |
| Ledger.Report.Fail | backend/scripts/seed_demo.py:1055-1056 | appends a failing row and marks the report |
| Ledger.Verify | backend/scripts/seed_demo.py:1021-1120 | the loop, the sheets and the closing counts append exactly the specified rows, and the report fails exactly when a check or a sheet does |
| Ledger.EntryChecksExactly | backend/scripts/seed_demo.py:1026-1033 | an entry with lines is unbalanced if and only if its debits and credits differ, and zero-valued if and only if its debits add up to nothing |
| Ledger.DuplicatesExactly | backend/scripts/seed_demo.py:1034-1038 | a source counts as a duplicate if and only if more than one entry has it |
| Ledger.CleanReportIff | backend/scripts/seed_demo.py:1021-1120 | the report is clean if and only if all those counts are zero, posted debits equal posted credits, and there is revenue and cost of sales |
| Ledger.ReportCounts | backend/scripts/seed_demo.py:1108-1120 | the closing counts never fail the report |
| Ledger.VerifySheets | backend/scripts/seed_demo.py:1060-1106 | the trial balance and profit-and-loss rows can fail, the balance-sheet row never does |
| Ledger.CleanReportTies | backend/scripts/seed_demo.py:1052-1106 | a clean report still implies balanced entries, a zero trial balance and a sheet that ties |
| Ledger.ReversalShiftsTwice | backend/app/modules/ledger/posting.py:203-264 | reversing an entry moves each account type's posted net by twice the entry's own contribution, because the original leaves the posted set and its mirror enters it |
| Ledger.ReversalCancelsOnlyNothing | backend/app/modules/ledger/posting.py:203-264 | the posted nets after a reversal are those without the entry if and only if the entry contributed nothing |
| Phone.FormatGroups | backend/app/core/phone.py:83-91 | the loop over group sizes produces the recursive grouping |
| Phone.FormatForDisplay | backend/app/core/phone.py:59-94 | the whole formatter equals the display function |
| Phone.DigitsOfConcat | backend/app/core/phone.py:45-56 | canonicalising works character by character: it distributes over concatenation |
| Phone.DigitsOfOne | backend/app/core/phone.py:45-56 | and keeps exactly the characters 0 to 9 |
| Phone.CanonicalRoundTrip | backend/app/core/phone.py:45-94 | for every input, canonicalising the displayed form gives the canonical form of the input |
| Phone.DisplayExactly | backend/app/core/phone.py:59-94 | a number of a listed country is its code followed by its groups, any other number only gets its plus sign, and text without digits is left alone |
| Phone.GroupsExactly | backend/app/core/phone.py:83-91 | the i-th group is the stretch of digits the rule assigns to it, and is there if and only if digits are left for it |
| Phone.JoinAppend | backend/app/core/phone.py:92-92 | joining puts one space before every part but the first |
| Phone.TwoGroupCountries | backend/app/core/phone.py:31-42 | the documented format of full-length numbers, for each country with two groups |
| Phone.ThreeGroupCountries | backend/app/core/phone.py:31-42 | and for each with three |
| Phone.DisplayIdempotent | backend/app/core/phone.py:59-94 | displaying a displayed number changes nothing |
| Phone.DisplaySeparatesNumbers | backend/app/core/phone.py:59-94 | two inputs with digits are displayed alike if and only if they are the same number |
| Phone.GroupsKeepDigits | backend/app/core/phone.py:84-91 | grouping neither loses nor reorders digits, for national parts of any length |
| Phone.GroupsShape | backend/app/core/phone.py:84-91 | no empty group; every group but the last has its rule's size or is the overflow |
| Phone.DisplayWellSpaced | backend/app/core/phone.py:92-94 | no leading, trailing or double space |
| Phone.CodesPrefixFree | backend/app/core/phone.py:31-42 | no country code is a prefix of another |
| Phone.RuleOrderIrrelevant | backend/app/core/phone.py:78-80 | so with a prefix-free rule list the matching rule does not depend on order |
| Phone.DisplayIgnoresRuleOrder | backend/app/core/phone.py:78-94 | nor does the displayed form |
| PhoneMigration.AloneMeansCountOne | backend/alembic/versions/0014_canonicalize_contact_phone.py:48-51 | the subquery's COUNT(*) = 1 says that no other row has the same canonical form |
| PhoneMigration.UniqueThroughout | backend/alembic/versions/0014_canonicalize_contact_phone.py:42-52 | phones stay unique at every intermediate step, in any row order |
| PhoneMigration.CanonicalIffAlone | backend/alembic/versions/0014_canonicalize_contact_phone.py:46-51 | afterwards exactly the rows that already were canonical or were alone in their class are canonical |
| PhoneMigration.CollidingRowsUntouched | backend/alembic/versions/0014_canonicalize_contact_phone.py:47-51 | every row that shares its class is left as it was |
| PhoneMigration.ClassesKept | backend/alembic/versions/0014_canonicalize_contact_phone.py:45-45 | no row changes its canonical class |
| PhoneMigration.UpgradeIdempotent | backend/alembic/versions/0014_canonicalize_contact_phone.py:41-53 | a second run changes nothing |
| PhoneMigration.LookupAfterUpgrade | backend/alembic/versions/0014_canonicalize_contact_phone.py:28-38 | afterwards an inbound sender is found by exact match if and only if its class has one row or a canonical member |
| PhoneMigration.Contacts.SetPhone | backend/alembic/versions/0014_canonicalize_contact_phone.py:44-45 | the unique constraint refuses exactly a phone another row holds |
| PhoneMigration.Contacts.VisitRow | backend/alembic/versions/0014_canonicalize_contact_phone.py:44-51 | one row of the update, decided on the statement's snapshot |
| PhoneMigration.Contacts.Upgrade | backend/alembic/versions/0014_canonicalize_contact_phone.py:41-53 | for every visiting order the constraint is never violated and the table becomes the specified one |
| RateLimiter.StepKeepsInv | backend/app/integrations/meta/client.py:61-74 | the spacing invariant is kept by every step of any number of threads |
| RateLimiter.RunKeepsInv | backend/app/integrations/meta/client.py:61-74 | and by every run |
| RateLimiter.WindowFills | backend/app/integrations/meta/client.py:56-74 | the last of the n sends inside a window comes at least n - 1 intervals after the window opens |
| RateLimiter.WindowBound | backend/app/integrations/meta/client.py:61-74 | successive recorded sends an interval apart bound the number in any window |
| RateLimiter.SendsAreReturns | backend/app/integrations/meta/client.py:61-74 | the recorded times are exactly the clock readings with which calls return |
| RateLimiter.OneCallAtATime | backend/app/integrations/meta/client.py:59-66 | over every run each call that took the lock has returned, except at most the one inside |
| RateLimiter.WaitsExactly | backend/app/integrations/meta/client.py:66-74 | a call returns at once if and only if an interval has passed since the last send, and otherwise sleeps exactly until it has |
| RateLimiter.RateBound | backend/app/integrations/meta/client.py:44-74 | in any window of length T at most floor(T * rate) + 1 calls return |
| RateLimiter.DisabledNeverSteps | backend/app/integrations/meta/client.py:63-65 | a rate of zero or less records and delays nothing |
| RateLimiter.AcquireIsARun | backend/app/integrations/meta/client.py:61-74 | one acquire is a run of the step relation |
| RateLimiter.SendRateLimiter.constructor | backend/app/integrations/meta/client.py:56-59 | the interval is the rate's reciprocal, or zero when disabled |
| RateLimiter.SendRateLimiter.Acquire | backend/app/integrations/meta/client.py:61-74 | does what that run does to the recorded time: the first reading after an interval has passed, else the reading after the sleep |
| RefreshTokens.RefreshGrantsIffExchangeable | files/service.py:91-142 | a refresh yields a pair if and only if the record exists, is unrevoked and unexpired and its user is active |
| RefreshTokens.LoginGrantsIff | files/service.py:56-89 | a login is granted if and only if the lower-cased address belongs to an active user whose hash the password verifies against; it then adds one live record for that user with the generated token's hash and lifetime, and a refused one changes nothing |
| RefreshTokens.RefreshEffect | files/service.py:91-142 | a granted refresh revokes the consumed record and adds one for the same user and chain; which error a refused one gives |
| RefreshTokens.LogoutEffect | files/service.py:144-149 | a logout revokes the token's record and touches nothing else |
| RefreshTokens.PruneEffect | backend/app/modules/auth/repository.py:83-89 | pruning removes exactly the expired records |
| RefreshTokens.OperationKeepsInv | files/service.py:56-149 | the token invariant is kept by login, refresh, logout, changes of the active flag and pruning of expired records |
| RefreshTokens.RunKeepsInv | files/service.py:56-149 | and by every run |
| RefreshTokens.RotationIsSafe | files/service.py:122-131 | in every run each login chain has at most one live record and each raw token is exchanged at most once |
| RefreshTokens.SpentForever | files/service.py:101-102 | a generated token without an unrevoked record is refused in every later state of every run |
| RefreshTokens.LogoutSpends | files/service.py:144-149 | logout spends the token it is given |
| RefreshTokens.ExchangeSpends | files/service.py:122-131 | so does a successful refresh |
| RefreshTokens.AuthService.LogIn | files/service.py:56-89 | equals the login operation, with its errors in order; granted exactly to an active user with that address and password, with one new live record, and without effect when refused |
| RefreshTokens.AuthService.RefreshPair | files/service.py:91-142 | equals the refresh operation |
| RefreshTokens.AuthService.RevokeToken | files/service.py:144-149 | equals the logout operation |
| RefreshTokens.AuthService.UserByEmail | backend/app/modules/auth/repository.py:17-20 | finds a user by the lower-cased address exactly when there is one |
| RefreshTokens.AuthService.RecordByHash | backend/app/modules/auth/repository.py:60-63 | finds a token record by hash exactly when there is one |
| ReadOnlyCache.StepKeepsInv | backend/app/core/middleware.py:78-90 | the cache invariant is kept by every step of any number of overlapping checks |
| ReadOnlyCache.RunKeepsInv | backend/app/core/middleware.py:78-90 | and by every run |
| ReadOnlyCache.TrueIsBackedByAFetch | backend/app/core/middleware.py:78-90 | a True answer is justified by a successful fetch begun less than 10 s before that check or during it; a failed fetch answers False |
| ReadOnlyCache.FlipTakesEffect | backend/app/core/middleware.py:55-60 | a check begun more than 10 s after the last flip answers the flag itself, except that a failed fetch or the initial value answers False |
| ReadOnlyCache.OwnFetchIsAnswered | backend/app/core/middleware.py:83-90 | over every run, a check that ends with its own successful fetch answers the flag as it read it and leaves that in the cache |
| ReadOnlyCache.AnswersFollowTheSteps | backend/app/core/middleware.py:78-90 | every answer of every run, from its steps alone: a finishing check answers what it found, and a beginning one what the last check to finish found, if that check began less than ten seconds ago |
| ReadOnlyCache.FalseHasACause | backend/app/core/middleware.py:78-90 | a set flag is answered as off more than ten seconds after it was set only if a check begun less than ten seconds before, or that check itself, had a failed fetch, or no check has finished yet |
| ReadOnlyCache.ReadOnlyFlag.BeginCheck | backend/app/core/middleware.py:80-82 | answers from the cache exactly while it is fresh |
| ReadOnlyCache.ReadOnlyFlag.FinishCheck | backend/app/core/middleware.py:83-90 | stores and returns exactly the fetched value, or False on failure, stamped with the check's start |

## Left out

- Claude calls, prompts, client memory files and information extraction: a round trip is an arbitrary proposal or failure.
- Runtime settings enter as inputs that may be unreadable; their storage is not modelled, nor is a database error that leaves the surrounding transaction unusable.
- Celery redelivery after worker loss: a crash only ends the execution.
- Deletion of the conversation: it appears only as a missing contact row, which lets nothing be committed; the sender's missing-message answer appears in `Orchestrator.Worker.SendAiReply` alone.
- The memory update when AI resumes and the processing it triggers: only the search for an unreplied message is modelled.
- Domain events, audit entries and conversation locks of the human operations: they do not decide the row's state.
- DecisionEngine.DraftExactly: does not cover the message type column and the linked business-card image, because the image only changes a media row.
- DecisionEngine.AutoSendExactly: reads binary floating-point confidences as reals.
- Orchestrator.AiOrchestrator.CreateDraftMessage: does not link the business-card image, because the link only changes a media row.
- Orchestrator.AiOrchestrator.ProcessInbound: leaves out the contact information and the memory row written in the same transaction; unexpected exceptions are steps of the protocol only (`Fail`).
- Orchestrator.Worker.RunAiRequest: takes the random send delay and the new message's key as inputs.
- Orchestrator.FindUnreplied: does not model which of several equally late inbound messages the database returns.
- Rollups.HoursReconcile, like every rollup, leaves out the token and latency columns, which are further sums and an average over the same rows, and the overflow of numeric(12,4) totals.
- Rollups.RoiFits: assumes revenue and cost are not negative, and rounds the quotient once; the database first rounds it to a finer scale, which `Rollups.RoiSurvivesFinerRounding` shows harmless while the cost has fewer units than that scale has parts to a unit.
- Attribution.DeterminedIffNoTies: goes one way only when some contact has revenue of less than one cent, because such a tie may or may not survive the rounding; `AttributionTies.DeterminedIffRangesRoundAlike` is exact for all revenue.
- RollupStore.RollupTables.Backfill: source rows are fixed while it runs, and the totals it logs are left out.
- Money.MoneySum: signalling NaNs and exponents beyond the decimal context's limits are not modelled.
- Ledger.Verify: the four counts over other tables come in as numbers, and rows carry no message text.
- Ledger.ReversalShiftsTwice: models the lines and statuses a reversal leaves, not the validation inside posting.
- RateLimiter.RateBound: reads binary floats as reals and takes that a sleep lasts at least as long as requested.
- RefreshTokens.RotationIsSafe: operations run one after the other; two refreshes of one token interleaved inside a transaction are outside the model, and so are deletion of users and the unused revoke-all operation.
- RefreshTokens.SpentForever: hashing is taken to be free of collisions and generated tokens to be new.
- ReadOnlyCache.TrueIsBackedByAFetch: an answer from the initial cache value is always False and needs no fetch.
- Removal of stale rollup keys and delivered counts above sent counts in campaign rows: the queries do not promise either.
- Routers, the rest of the Meta client, JWT, password hashing, configuration, the seeding phases, the other migrations and the frontend.
