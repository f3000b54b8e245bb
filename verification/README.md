# Jan Setu durability layer: a verified model

Jan Setu takes civic complaints over WhatsApp and the web, runs them through a pipeline and hands them to
a municipal department. Its durability rests on rows that several processes share: replies waiting to be
sent, webhook events waiting to be driven, conversations, complaints, pipeline jobs, rate-limit rows. Any
process may crash between two commits, come back after its lease has run out, or run beside another.

The project models those protocols and proves what they guarantee over every run.

How it is built:

- A system is a `World` and a total `Step` function. An event is one committed transaction, one external
  call or one crash; a run is any sequence of events (`Runs.Run`), so a statement about all event
  sequences is a statement about all interleavings. `Runs.Allowed` restricts a run where the code relies
  on a discipline it does not check (workers that return before their lease ends, callers that look at a
  status first); the discipline is then a named predicate.
- The code that changes rows is written as classes and methods (`Outbox.MessageStore`, `Sending.Session`,
  `IntakeDriver.Tables`, `WebhookDriver.Tables`, `LifecycleDriver.Tables`, `JobsDriver.Tables`,
  `Throttle.RateLimits`, `Login.LoginRequests`), statement by statement. Each method is proved to move the
  system exactly as the steps do, with arbitrary steps of everyone else between its own commits. The
  theorems about runs therefore are theorems about the methods.
- What an operation does is said twice: once as the function its method is proved against, and once on rows,
  messages and clock readings alone (`Clearance`, `Story`, `TurnRecords`, `Finalizing`, `Attendance`, `Drives`,
  `JobRows`, the request's records in `Login`), with a lemma that the two agree on all inputs.
- External answers (Graph, dispatcher, language model), clock readings and failures are arguments.

Modules, by file:

| file | models |
|---|---|
| `Runs.dfy`, `Wrappers.dfy` | runs, invariance, simulation; optional values and the clock |
| `Outbox.dfy`, `Dispatch.dfy`, `Clearance.dfy`, `Sending.dfy` | the reply outbox, who may be sent what, and the senders |
| `ButtonIds.dfy`, `Conversation.dfy`, `Story.dfy` | button ids; the guided conversation, and what it holds told from what was said |
| `Intake.dfy`, `IntakeProofs.dfy`, `TurnRecords.dfy`, `IntakeDriver.dfy`, `IntakeRuns.dfy` | the transaction of one inbound message or follow-up, and every column it writes; two runs that go wrong |
| `Provenance.dfy` | where the contents of a complaint come from |
| `Webhook.dfy`, `Drives.dfy`, `WebhookDriver.dfy` | driving webhook events |
| `EndToEnd.dfy` | drives and conversation tables together |
| `Taxonomy.dfy`, `Dedup.dfy`, `Lifecycle.dfy`, `Finalizing.dfy` | routing policy, duplicates, the lifecycle's steps, conservation of reports, finalize row by row |
| `DispatchRetries.dfy`, `Timeline.dfy` | dispatch retries, overlapping or not; the audit timeline |
| `LifecycleDriver.dfy`, `Attendance.dfy`, `LifecycleRuns.dfy` | the lifecycle's operations; who sees to a complaint; six runs that go wrong |
| `Jobs.dfy`, `JobRows.dfy`, `JobsDriver.dfy` | the pipeline job queue, its rows, and the worker's batch |
| `Throttle.dfy` | the provider throttle |
| `Login.dfy` | the hourly challenge limit and login approvals |
| `Media.dfy` | re-rooting of stored upload paths |

## Where the code does less than it says

Each of these is a theorem with the exact condition, a run from the empty tables, or both.

- The docstring of `drive_event` promises that a failed message is retried; the code gives turns only to
  messages it has itself just stored. `Webhook.ConsumableUnlessLost` says exactly which messages can still
  get a turn; `Webhook.FailedTurnLosesMessage` is a run that loses one.
- The limit of five send attempts is checked on the session's copy of the row. A sweep loads its rows before
  it claims them, sessions do not refresh what they have loaded (`expire_on_commit` is off), and the claim
  only adds one to the copy. `Dispatch.LimitIsPassedExactlyByAnOutdatedCount` says which claim gets past the
  limit, `SixthCall.ASixthCallHappens` is a run with six calls, `Dispatch.CallsAreBounded` bounds the calls by
  five and one for each sweeping session, and `Dispatch.CallsKeepTheLimit` gives five when no claim of a row
  comes between a sweep's query and its own claim of that row.
- A sent reply can go back to pending: `Dispatch.SentIsLeftExactlyByARefusedMark` says when,
  `Dispatch.SentCanBeTakenBack` is a run. If senders mark within their lease it cannot
  (`PunctualSenders.SentIsFinal`).
- A comment in `send_pending` says a failed call leaves its lease to expire; the code puts the row back to
  pending at once, without a lease, and so does the model.
- The pipeline follow-up overwrites the state of whatever conversation is active.
  `Conversation.FollowUpIsRightExactlyWhenItFits` gives the check a caller could make and proves it exact;
  `IntakeRuns.ALateAnswerFinalizesNothing` is a run in which the old conversation expires, the follow-up lands
  on a new one, and a bare button then finalizes a conversation without a complaint.
- The follow-up's idempotency key repeats. `IntakeProofs.FollowUpIsSentExactlyOnce` says which follow-ups are
  sent in any run, `IntakeRuns.ASecondMismatchIsNotSent` is a run whose second mismatch warning is not.
- Merging a duplicate is a read followed by an unlocked write of `report_count`.
  `Lifecycle.MergeConservesExactly` gives the exact condition under which no report is lost or counted
  twice; `Lifecycle.ConcurrentMergesLoseAReport` shows that two concurrent merges always lose one.
  Re-running the pipeline or replacing the photo of a confirmed complaint is not guarded by the code;
  `Lifecycle.FreshMergeConservesExactly` says what that costs.
- A priority complaint is committed as registered before it is dispatched and no sweep looks at registered
  rows. `Attendance.UnattendedExactlyBeforeDispatch`: exactly an urgent complaint is left for nobody to find;
  `LifecycleRuns.AStrandedComplaint` is a run.  In the disciplined runs there is one other way to get there
  (`Attendance.ComplaintIsDroppedExactly`): an official's decision, or a re-extraction that is written after the
  confirmation, takes the pending review of a registered complaint away.
- The sweep for interrupted dispatches cannot tell one that crashed from one that is under way.
  `DispatchRetries.OverlapBeginsExactly` says when two dispatches of a complaint overlap,
  `DispatchRetries.FailureIsUncountedExactly` which recorded failures then do not count;
  `LifecycleRuns.TwoDeliveries` and `LifecycleRuns.TwoFailuresCountOnce` are runs without any crash. The bounds
  on retries hold when dispatches of a complaint do not overlap (`DispatchRetries.DispatchIsBounded`).
- A finished complaint can be taken up again: `DispatchRetries.FinishedIsLeftExactly` lists the steps. Replacing
  the photo, which checks no status, is one of them; callers that keep their discipline take none
  (`DispatchRetries.FinishedStaysFinished`).
- `grievance_events` does not record every transition, as the comment in the data model says it does:
  draft, processing and dispatching are missing (`Timeline.UnrecordedStatuses`,
  `LifecycleRuns.StatusesOffTheRecord`). And sessions that wait for a model write back about the row as they
  loaded it: a re-extraction repeats the status it loaded, and a pipeline run or photo check that loaded the
  row in the status it sets does not write that status, but adds its entry.
  `Timeline.TimelineEndsInStatusExactly` says when a step leaves the timeline ending in the current status;
  `LifecycleRuns.AStaleReextraction` and `LifecycleRuns.AStalePhotoCheck` are runs that do not.
- A stale worker can reopen a completed job: `Jobs.CompletedIsLeftExactlyByAStaleFailure` and
  `Jobs.ClaimableAgainExactly`. If workers finish within their lease, completed is final
  (`PunctualWorkers.CompletedIsFinal`).
- A failed job is loaded and written back without a lock. A claim in between can leave a retry without
  attempts, which nobody ever picks up: `Jobs.RetryIsSpentExactlyByAClaimInBetween` and
  `Jobs.LeaseIsLeftExactlyByAClaimInBetween` give the exact steps, `SpentRetry.ARetryWithoutAttempts` is a run,
  and without such a write in between the rows are sound (`Jobs.RowsAreSound`).

## Model

| member | source | states |
|---|---|---|
| Outbox.MessageStore.StoreOutgoingPending | src/jan_setu/repositories/messages.py:116-148 | a reply becomes a new pending row exactly when its idempotency key is free; nothing else changes |
| Outbox.MessageStore.ClaimOutbound | src/jan_setu/repositories/messages.py:151-170 | the claim is won exactly by a pending row or one whose lease has ended, and then leases it and counts the attempt; a lost claim changes nothing |
| Outbox.MessageStore.MarkOutbound | src/jan_setu/repositories/messages.py:173-185 | the mark writes status, clears the lease and keeps an earlier provider id when none is given, whoever owns the lease |
| Outbox.MessageStore.FetchSweepableOutbound | src/jan_setu/repositories/messages.py:188-203 | only claimable rows, in creation order, none twice, at most the limit; a claimable row is left out only for a full batch of older ones |
| Outbox.SweepIsOldestClaimable | src/jan_setu/repositories/messages.py:188-203 | exactly the claimable rows, ascending, none twice; a claimable row is left out only for a full batch of older ones |
| Sending.Session.Fetch | src/jan_setu/repositories/messages.py:188-203 | the sweep query loads each row it returns, with its attempts, into the sweeping session |
| Sending.Session.ClaimRow | src/jan_setu/repositories/messages.py:151-170 | the claim counts on the row itself, and the count the session will check is its own copy plus one if it had loaded the row, the row's count otherwise |
| Sending.Session.ClaimAndCheck | src/jan_setu/whatsapp/dispatch.py:44-123 | claim and checks are one step of the system; the row goes to the provider call exactly when the claim wins and the row may go out, and the result is blocked exactly when its window or its contact's last message is too long ago |
| Sending.Session.Check | src/jan_setu/whatsapp/dispatch.py:48-123 | the row goes out exactly when the count read is at most five, its conversation's window is absent or open, and a login approval is still waited for by a contact in touch; it is blocked exactly when it is closed as outside a window; every row, challenge and flight after it |
| Sending.Session.SendRaw | src/jan_setu/whatsapp/dispatch.py:125-127 | the provider's answer is logged under the sender's own attempt and known to no row yet |
| Sending.Session.Record | src/jan_setu/whatsapp/dispatch.py:125-160 | a refusal puts the row back to pending, an acceptance marks it sent with the provider's id |
| Sending.Session.SendPending | src/jan_setu/whatsapp/dispatch.py:36-160 | with anything done by others between its commits, one invocation is claim - call - mark of the system and keeps the invariant; it reports a delivery exactly when its claim won, the row might go out and the provider accepted, so never for a window that is over, and reports blocked exactly for a window or contact out of time |
| Sending.SweepPendingOutbound | src/jan_setu/whatsapp/dispatch.py:163-175 | the sweep loads its rows, then runs one invocation for each, oldest first, checking attempts on what it loaded; it returns their number |
| Sending.QuietTurnFinishes | src/jan_setu/whatsapp/dispatch.py:36-160 | an undisturbed invocation whose call is accepted finishes the row it claims and touches no other |
| Sending.QuietSweepFinishes | src/jan_setu/whatsapp/dispatch.py:163-175 | an undisturbed sweep whose calls are accepted finishes every row it fetched and touches no other |
| Dispatch.StepKeepsInv | src/jan_setu/whatsapp/dispatch.py:36-175 | leases, attempt numbers, loaded counts, logs and flights stay consistent under every step of every sender, sweep, crash or clock |
| Clearance.SentOffExactlyWhenCleared | src/jan_setu/whatsapp/dispatch.py:44-123 | a won claim sends the row off exactly when the count read is at most five, the conversation's window is absent or not over, and for a login approval the latest live challenge of the row is of a contact heard from within the service window; otherwise the row is closed as failed or blocked as each case says, and a challenge that comes too late falls back |
| Clearance.GateExactly | src/jan_setu/whatsapp/dispatch.py:52-115 | each outcome of the checks in terms of row, windows, challenges, last messages and clock |
| Clearance.NotFreeNotTouched | src/jan_setu/repositories/messages.py:151-170 | a claim of a row that is neither pending nor past its lease sends nobody off and changes no row or challenge |
| Clearance.AnswerOnTheRow | src/jan_setu/repositories/messages.py:173-185 | the mark after the answer: sent, with the provider's id if it gave one, or pending again, and free; nothing else on any row |
| Clearance.SweepNotesAttempts | src/jan_setu/repositories/messages.py:188-203 | the sweep query notes in its session the attempts of exactly the rows it returns |
| Dispatch.CallsAreBounded | src/jan_setu/whatsapp/dispatch.py:44-175 | in every run the provider is called for a row under attempt numbers of their own, at most five times and once more for each attempt an outdated count let through; those are made by different sweeping sessions |
| Dispatch.LimitIsPassedExactlyByAnOutdatedCount | src/jan_setu/whatsapp/dispatch.py:48-66 | a sender gets past the attempt check although the row's attempts are used up exactly when it wins a claim with a count its sweep loaded below the limit |
| Dispatch.CallsKeepTheLimit | src/jan_setu/whatsapp/dispatch.py:55-66 | if no claim of a row comes between a sweep's query and its own claim of it: at most five calls and eleven claims |
| SixthCall.ASixthCallHappens | src/jan_setu/whatsapp/dispatch.py:163-175 | a run from the empty table, two sweeps overlapping, with six calls for one row |
| Dispatch.AcceptancesAreConserved | src/jan_setu/whatsapp/dispatch.py:118-150 | every acceptance was marked sent, lost in a crash, or is about to be marked |
| Dispatch.NothingStuck | src/jan_setu/repositories/messages.py:151-203 | in every run a row can be claimed exactly when it is unfinished and no lease still runs; a sending row always has a lease end |
| Dispatch.SentIsLeftExactlyByARefusedMark | src/jan_setu/repositories/messages.py:173-185 | a sent row changes status exactly when a sender whose own call was refused marks it |
| Dispatch.SentCanBeTakenBack | src/jan_setu/whatsapp/dispatch.py:125-150 | a run from the empty table in which a sent row becomes pending again |
| PunctualSenders.DeliveredOncePlusCrashes | src/jan_setu/whatsapp/dispatch.py:44-160 | if senders that do not crash mark within their lease: one sender at a time, acceptances at most one more than crashes after acceptance, and the sixth claim, plus one for each attempt an outdated count let through, has closed the row as failed |
| PunctualSenders.SixthClaimCloses | src/jan_setu/whatsapp/dispatch.py:55-66 | with sweeps that act on current counts besides, the sixth claim is the last and closes the row as failed |
| PunctualSenders.SentStaysSent | src/jan_setu/repositories/messages.py:173-185 | no step of such a run takes a sent row back |
| PunctualSenders.SentIsFinal | src/jan_setu/repositories/messages.py:173-185 | over any continuation of such a run a sent row stays sent |
| ButtonIds.ConfirmRoundTrip | src/jan_setu/whatsapp/conversation.py:100-105 | for a colon-free base and any token, colons included, exactly `base:token` parses to that base and token |
| ButtonIds.BareIdHasNoToken | src/jan_setu/whatsapp/conversation.py:100-105 | an id without a colon is all base and no token |
| ButtonIds.LoginApprovalRoundTrip | src/jan_setu/auth.py:78-91 | parsing accepts exactly the ids built from well-formed approvals and returns that approval |
| Conversation.TurnKeepsOrder | src/jan_setu/whatsapp/conversation.py:225-618 | one turn keeps what each stage needs, never goes back, loses nothing collected, stages the coordinates of a place under that message's id, and each side effect happens at the one border it belongs to |
| Conversation.FirstTurnIsOk | src/jan_setu/whatsapp/conversation.py:247-286 | the first message leads to a well-formed conversation without side effect |
| Conversation.OnlyTheLatestCardConfirms | src/jan_setu/whatsapp/conversation.py:312-390 | a location is confirmed, or discarded, exactly by the Yes, or No, button that carries the token of the location last staged |
| Conversation.OlderCardIsDead | src/jan_setu/whatsapp/conversation.py:114-149 | after a newer location the card shows the newer coordinates under the newer id, and neither button of the older card moves the conversation |
| Story.PlaceIsStaged | src/jan_setu/whatsapp/conversation.py:114-149 | a place sent before any is confirmed: coordinates, id, address and geocoder status are that message's, unconfirmed, the card carries its id, and nothing else of the conversation changes |
| Story.NoPlaceYet | src/jan_setu/whatsapp/conversation.py:274-310 | anything else before a place asks for one and changes nothing |
| Story.CardIsAnswered | src/jan_setu/whatsapp/conversation.py:312-390 | Yes with the card's id confirms at this reading of the clock, No with it discards the place, anything else shows the card again |
| Story.IssueIsTold | src/jan_setu/whatsapp/conversation.py:392-447 | until Done is tapped on an issue that is not empty, each content message is appended as it was sent and nothing else changes |
| Story.PhotoIsAnswered | src/jan_setu/whatsapp/conversation.py:449-508 | the photo is the picture sent or skipped, and exactly then the pipeline starts |
| Story.MismatchIsAnswered | src/jan_setu/whatsapp/conversation.py:519-570 | a new picture replaces the photo and is checked again, or the citizen goes on without; nothing else moves a mismatch |
| Story.ComplaintIsAnswered | src/jan_setu/whatsapp/conversation.py:572-606 | filed or withdrawn by exactly the two buttons that carry the draft's id, with the context kept |
| Story.NothingIsAnswered | src/jan_setu/whatsapp/conversation.py:510-618 | while the pipeline works, and after the end, nothing said changes anything |
| Story.TapsIsTheBase | src/jan_setu/whatsapp/conversation.py:100-105 | a reply's base is a button exactly when the id is that button or that button, a colon and a token |
| Story.FirstMessageIsSaid | src/jan_setu/whatsapp/conversation.py:247-286 | the first message leads where it leads in a conversation in which nothing was said |
| Story.ConfirmedPlaceIsTheOneTapped | src/jan_setu/whatsapp/conversation.py:114-390 | in every conversation past its confirmation there is a Yes that carries the id of the last place sent before it, and coordinates, address and geocoder status are that message's, then and ever after |
| Story.IssueIsWhatWasTold | src/jan_setu/whatsapp/conversation.py:392-447 | in every conversation the issue is exactly the content messages heard while it was asked for, in order and once, under the id of the first |
| Story.PhotoIsTheLastAccepted | src/jan_setu/whatsapp/conversation.py:449-570 | in every conversation the photo is that of the last picture accepted, while it was asked for or did not fit, or skipped if none was |
| Conversation.OnlyThisDraftsCardCloses | src/jan_setu/whatsapp/conversation.py:572-606 | a complaint is filed or cancelled exactly by the two buttons that carry this draft's id |
| Conversation.FollowUpIsRightExactlyWhenItFits | src/jan_setu/whatsapp/processing.py:571-612 | overwriting the state keeps what the stages need, does not go back, and sends a card that acts on the complaint it is about, exactly when the conversation has that draft and is processing, in mismatch, or awaiting confirmation of a ready answer |
| Conversation.BareYesFinalizesNothing | src/jan_setu/whatsapp/conversation.py:572-590 | in a conversation overwritten without a draft, a button without a token finalizes and closes it, and there is no draft |
| Conversation.ConversationsMoveForward | src/jan_setu/whatsapp/conversation.py:225-618 | over any continuation: at most one pipeline start, at most one of finalize and cancel, stages, issue messages, location and draft id only grow or stay |
| Conversation.IssueIsWhatWasSent | src/jan_setu/whatsapp/conversation.py:392-447 | until Done is tapped the issue is exactly the content messages sent, in order, each once |
| IntakeDriver.Tables.ClaimInbound | src/jan_setu/repositories/conversations.py:44-53 | true exactly for the first caller with a message id |
| IntakeDriver.Tables.LockContactAndGetConversation | src/jan_setu/repositories/conversations.py:17-41 | the contact's active conversation, switched off instead when it has expired |
| IntakeDriver.Tables.UpsertConversationState | src/jan_setu/repositories/conversations.py:79-118 | a new conversation, or the old one with state, context, version and both expiries rewritten and its owner and activity kept |
| IntakeDriver.Tables.CreateDraftGrievance | src/jan_setu/repositories/grievances.py:17-62 | one draft per conversation: an existing one is returned unchanged |
| IntakeDriver.Tables.StoreIntents | src/jan_setu/whatsapp/processing.py:416-432 | every intent becomes a row unless its key is taken, and the returned ids are exactly the new rows |
| IntakeDriver.Tables.HandleInbound | src/jan_setu/whatsapp/processing.py:207-447 | the whole transaction moves the tables by one step, raises exactly when it is undone, returns the rows it added, and a turn of a conversation leaves conversation, replies, handled message and complaint as told column by column |
| TurnRecords.InterceptExactly | src/jan_setu/whatsapp/processing.py:248-331 | which messages never reach a conversation: login buttons in answer to a message, and verification codes |
| TurnRecords.InterceptedWrites | src/jan_setu/whatsapp/processing.py:248-331 | such a message is marked handled and answered by one reply of its own; no conversation or complaint changes |
| TurnRecords.StatusWrites | src/jan_setu/whatsapp/processing.py:338-364 | a status question outside any conversation: one reply, and an expired conversation switched off |
| TurnRecords.TurnWritesConversation | src/jan_setu/repositories/conversations.py:79-118 | every column of the conversation after a turn - state, context, version, activity, window from the message's receipt, expiry from the clock - and every other conversation |
| TurnRecords.TurnWritesReplies | src/jan_setu/whatsapp/processing.py:408-434 | the reply, if there is one, with its key, contact, conversation, buttons and the message it answers, and the entry of the handled message with the states before and after |
| TurnRecords.TurnWritesComplaint | src/jan_setu/whatsapp/processing.py:385-406 | a complaint is drafted from the conversation's place, messages and photo under the new id; a picture sent again replaces the photo of the complaint named; no other turn touches one |
| TurnRecords.TurnRaisesExactly | src/jan_setu/whatsapp/processing.py:397-406 | a turn is undone exactly when it would replace the photo of a complaint that does not exist |
| TurnRecords.FollowUpWrites | src/jan_setu/whatsapp/processing.py:560-625 | a follow-up that finds an active conversation, and the complaint it announces, sets the state and stores its question with its buttons unless the same one was stored before; otherwise it changes nothing |
| Provenance.ConversationsHoldWhatWasSent | src/jan_setu/whatsapp/processing.py:207-447 | in every run of the tables, with rollbacks, expiry, redelivery and late follow-ups: the place on a card is one the contact sent, a confirmed place one the contact sent and said Yes to, and all messages and pictures are the contact's |
| Provenance.ComplaintsAreWhatWasSent | src/jan_setu/repositories/grievances.py:25-62 | in every run in which drafts get new ids, each complaint agrees with its conversation in contact, place, messages and photo, and all of them are what that contact sent and confirmed |
| IntakeDriver.Tables.SendPipelineFollowUp | src/jan_setu/whatsapp/processing.py:560-635 | the follow-up is one step: state and reply together, or neither; the row it returns for sending is the one it added, and it returns none when it added none |
| IntakeProofs.TablesRefineConversations | src/jan_setu/whatsapp/processing.py:207-442 | for every interleaving of turns, redeliveries, follow-ups and rollbacks, each contact's conversation in the tables is the fold of the conversation function over the committed events, each message id once, in commit order; the consumed ids are exactly those messages |
| IntakeProofs.ReplayChangesNothing | src/jan_setu/whatsapp/processing.py:235-244 | a consumed message changes no conversation, draft, consumption or reply |
| IntakeProofs.TablesStayConsistent | src/jan_setu/repositories/conversations.py:17-118 | in every run a contact has at most one active conversation, no done conversation is active, a conversation is named by at most one grievance |
| IntakeProofs.ClosedAndExpiredAreNotAdvanced | src/jan_setu/repositories/conversations.py:28-41 | a closed or expired conversation is never advanced; an expired one can only be switched off |
| IntakeProofs.EveryReplyIsStored | src/jan_setu/whatsapp/processing.py:416-432 | a new message that reaches the state machine stores every one of its replies as a new pending row |
| IntakeProofs.ConversationsStayInOrder | src/jan_setu/whatsapp/processing.py:231-442 | with follow-ups that fit the conversation they find, every contact's conversation has what its stage needs, in every run |
| IntakeProofs.FollowUpIsSentExactlyOnAFreeKey | src/jan_setu/whatsapp/processing.py:612-630 | a follow-up that finds a conversation adds its reply exactly when its key is free, and no row otherwise |
| IntakeProofs.FollowUpIsSentExactlyOnce | src/jan_setu/whatsapp/processing.py:571-630 | in every run a follow-up that finds a conversation is sent exactly when no earlier one found it with the same status about the same complaint |
| IntakeRuns.ASecondMismatchIsNotSent | src/jan_setu/whatsapp/processing.py:612-630 | a run from the empty tables - mismatch, another photo, mismatch again - whose second follow-up stores nothing |
| IntakeRuns.ALateAnswerFinalizesNothing | src/jan_setu/whatsapp/processing.py:571-612 | a run from the empty tables after which a bare button finalizes a conversation that has no draft |
| Webhook.TurnsAndDrivesAreBounded | src/jan_setu/whatsapp/processing.py:82-146 | in every run each message has at most one committed turn and the body of a drive runs at most five times per event |
| Webhook.HandedOnIsUnconsumed | src/jan_setu/whatsapp/processing.py:126-139 | a drive only hands on messages that have had no committed turn |
| Webhook.FreshIsNewOnce | src/jan_setu/repositories/messages.py:29-77 | the messages an insert creates are the payload's ids not yet stored, each once |
| Webhook.ByTimeSorts | src/jan_setu/whatsapp/processing.py:126-132 | the turns are taken in order of receipt and over exactly the fresh messages |
| Webhook.ProcessedIsFinal | src/jan_setu/repositories/webhook_events.py:34-65 | a processed event is never unprocessed and never claimed again |
| Webhook.ConsumableUnlessLost | src/jan_setu/whatsapp/processing.py:82-146 | a message without a committed turn can still get one exactly when it is not stored yet or some drive still holds it |
| Webhook.FailedTurnLosesMessage | src/jan_setu/whatsapp/processing.py:126-146 | a run in which one rolled-back turn loses its message while the event ends as processed |
| Webhook.DriveOnce | src/jan_setu/whatsapp/processing.py:82-146 | an undisturbed drive finishes the event exactly when its attempts are used up or every new message's turn went well, and otherwise spends one of its first five attempts under its lease |
| Drives.EventChangesExactly | src/jan_setu/repositories/webhook_events.py:34-65 | in any step an event changes only by a claim, for a minute and one attempt more, when it is open, or by being marked processed and freed by a drive that gives up after five attempts or one all of whose turns went well |
| Drives.MessagesAreTakenOn | src/jan_setu/whatsapp/processing.py:107-127 | a drive takes on exactly the messages whose ids are not stored, each once, by time of receipt, or none with replies switched off |
| Drives.TurnIsTaken | src/jan_setu/whatsapp/processing.py:130-137 | a turn uses the next message up, is remembered if it failed, and consumes the message if it was committed |
| Webhook.SixDrivesSuffice | src/jan_setu/whatsapp/processing.py:82-146 | undisturbed, at most six drives finish any event, whatever its turns do |
| EndToEnd.CommittedTurnsAreTheHistory | src/jan_setu/whatsapp/processing.py:126-139 | in every run of drives and follow-ups together, the messages whose turns the drives commit are, in commit order, the turns of the history that counts for the conversation tables |
| EndToEnd.TablesShowCommittedTurns | src/jan_setu/whatsapp/processing.py:82-442 | end to end: each contact's conversation in the tables is the fold over a history whose turns are exactly those the drives committed, each once; consumption rows and committed turns agree |
| WebhookDriver.Tables.ClaimEvent | src/jan_setu/repositories/webhook_events.py:42-65 | the claim is won exactly by an unprocessed event without a running lease |
| WebhookDriver.Tables.RunTurns | src/jan_setu/whatsapp/processing.py:128-139 | the loop gives every fresh message its turn, goes on after a failed one and remembers it |
| WebhookDriver.Tables.DriveEvent | src/jan_setu/whatsapp/processing.py:82-146 | with anything done by others between its commits, a drive is its steps of the system, gives each fresh message its turn, and marks the event when it gives up on it or the insert and every turn went well |
| Taxonomy.EveryKeyHasADepartment | src/jan_setu/pipeline/taxonomy.py:598-620 | every key, canonical, legacy or unknown, lands on a category of the table with a known department; canonical keys are fixed points |
| Taxonomy.MoreDangerNeverLowers | src/jan_setu/pipeline/taxonomy.py:630-709 | more danger never lowers priority, drops an official's review or makes a report mergeable |
| Taxonomy.DecisionsArePartitioned | src/jan_setu/pipeline/taxonomy.py:630-709 | review, merge and direct dispatch exclude each other and leave nothing out |
| Taxonomy.DispositionExactly | src/jan_setu/pipeline/taxonomy.py:630-709 | where each complaint goes: emergency, redirect, review, escalated or plain ticket, each exactly under its condition on danger, place, category, ownership and route |
| Taxonomy.PriorityExactly | src/jan_setu/pipeline/taxonomy.py:630-709 | which complaints have priority, which wait for an official and which may be merged, exactly |
| Taxonomy.KeyExactly | src/jan_setu/pipeline/taxonomy.py:598-611 | a key stands for itself, for its alias's category or for its legacy category, or for none |
| Dedup.FindDuplicate | src/jan_setu/pipeline/dedup.py:37-67 | finds `m` exactly when `m` is another row of the same category with an open window, inside box and radius, and no such row is nearer or as near and earlier; finds nothing exactly when there is no place or no such row |
| Dedup.DuplicateIsTheNearestOpenReport | src/jan_setu/repositories/grievances.py:98-126 | the same of the search as a function, on the rows alone |
| Dedup.NearestIsNearest | src/jan_setu/pipeline/dedup.py:53-67 | the search by running minimum finds the minimum |
| Lifecycle.FinalizeFollowsPolicy | src/jan_setu/pipeline/core.py:702-798 | for routing fields written from a policy decision, finalize waits for an official, looks for duplicates or dispatches exactly as the policy says, though it never sees the policy's dedup flag |
| Finalizing.VerdictExactly | src/jan_setu/pipeline/core.py:702-798 | an official is waited for exactly with a pending review or a disposition that needs one; an urgent complaint is dispatched; another joins `m` exactly when `m` is the nearest open report of its category ("other" if it has none); it opens a window exactly when there is none |
| Finalizing.RowsAfterFinalize | src/jan_setu/pipeline/core.py:702-798 | every column of every row after finalize, in each of those cases: the confirmed row, the report it joins with one more, and all others unchanged |
| Lifecycle.MergeConservesExactly | src/jan_setu/pipeline/core.py:764-789 | writing a merge keeps the number of reports exactly when the count written is the master's current count plus the merged row's weight |
| Lifecycle.FreshMergeConservesExactly | src/jan_setu/pipeline/core.py:764-789 | with the count still current, exactly when the merged row is a master of itself alone |
| Lifecycle.ConcurrentMergesLoseAReport | src/jan_setu/pipeline/core.py:770-774 | two merges into one master that both read before either writes lose one report |
| Lifecycle.StepKeepsInv | src/jan_setu/pipeline/core.py:230-926 | every step taken in turn keeps clusters, counts, links and windows consistent, with dispatches overlapping or not |
| Lifecycle.ReportsAreConserved | src/jan_setu/pipeline/core.py:702-798 | in every disciplined run the masters' counts add up to the number of complaints, each master counts itself and its duplicates, and links are one deep |
| DispatchRetries.CallsAreAccountedFor | src/jan_setu/pipeline/core.py:808-895 | in every run, overlapping or not: each failing call and each delivery is recorded, lost with a dispatcher that crashed, or in the hands of one at work |
| DispatchRetries.DispatchIsBounded | src/jan_setu/pipeline/core.py:808-895 | if dispatches of a complaint do not overlap: failing calls are at most five plus lost ones, deliveries at most one plus lost ones, recorded failures are the row's attempts, failed means exactly five, and only rows in dispatch are dispatched |
| DispatchRetries.OverlapBeginsExactly | src/jan_setu/repositories/grievances.py:163-169 | two dispatches of a complaint come to overlap exactly when one starts, on an enabled route, while one is under way |
| DispatchRetries.FailureIsUncountedExactly | src/jan_setu/pipeline/core.py:872-883 | a recorded failure does not raise the row's attempts exactly when it was read before another one was recorded |
| LifecycleRuns.TwoDeliveries | src/jan_setu/pipeline/core.py:915-926 | a run in turn, without any crash, in which the department gets a complaint twice |
| LifecycleRuns.TwoFailuresCountOnce | src/jan_setu/pipeline/core.py:872-883 | a run in turn in which two recorded refusals count as one attempt |
| Lifecycle.WindowIsOpenOrDue | src/jan_setu/repositories/grievances.py:154-160 | at every instant a row in its window is open to duplicates or due for dispatch, never both, never neither |
| DispatchRetries.FinishedStaysFinished | src/jan_setu/pipeline/core.py:702-926 | if callers keep their discipline and dispatches of a complaint do not overlap, submitted, failed, duplicate and cancelled complaints keep their status |
| DispatchRetries.FinishedIsLeftExactly | src/jan_setu/pipeline/core.py:230-926 | whatever callers do, a complaint leaves the finished statuses exactly by a pipeline run or photo check that had loaded it in another status than it sets, a confirmation that finds no duplicate, or the start of a dispatch |
| Timeline.TimelineEndsInStatusExactly | src/jan_setu/pipeline/core.py:230-926 | a step leaves the timeline ending in the row's status: for a re-extraction written back, exactly when the status it loaded is the status still; for a pipeline run or photo check, when it had loaded another status than it sets, or the row has that status; for a confirmation, cancellation, switched-off route or final answer, always; for the start of a dispatch, when the timeline ends in dispatching; for any other step, when it did before |
| Timeline.UnrecordedStatuses | src/jan_setu/repositories/grievances.py:81-87 | draft, processing and dispatching enter a timeline exactly by a re-extraction that had loaded them |
| Timeline.TimelineEndsInStatus | src/jan_setu/repositories/grievances.py:81-87 | if nothing is written back about a status that the row has left, the timeline ends in the current status in every run, except for draft, processing and dispatching |
| Timeline.WriteBackExactly | src/jan_setu/pipeline/core.py:424-691 | every column of a row after a re-extraction, a pipeline run or photo check, a review or a cancellation |
| Attendance.UnattendedExactlyBeforeDispatch | src/jan_setu/pipeline/core.py:702-798 | after finalize the row is a duplicate, waits for an official, or is found by a sweep at some time, exactly when it is not urgent |
| Attendance.SwitchedOffWaitsForAnOfficial | src/jan_setu/pipeline/core.py:815-834 | for every world, a dispatch on a route that is switched off starts no dispatcher, makes no call, and leaves the row registered with a pending review, so attended, and nothing else changed |
| Attendance.SwitchedOnSetsOut | src/jan_setu/pipeline/core.py:836-849 | on any other route only the status changes, and the dispatcher knows the attempts it read; the row is attended exactly while attempts are left |
| Attendance.RecordedIsAttendedExactly | src/jan_setu/pipeline/core.py:872-895 | every column after the answer is recorded; the row is then submitted, failed or attended exactly unless a refusal with attempts left meets a row that others have moved to where no sweep looks |
| Attendance.DispatchLeavesNobodyBehind | src/jan_setu/pipeline/core.py:808-895 | after any dispatch, however it ends, of a complaint that nobody else dispatches meanwhile: waiting for an official on a route switched off, otherwise submitted exactly when taken, failed exactly with the fifth refusal, else found by the sweep |
| Attendance.EveryComplaintIsSeenTo | src/jan_setu/pipeline/core.py:702-926 | at any time of a disciplined run a complaint is attended, over or not yet confirmed, exactly unless it is registered without a pending review |
| Attendance.ComplaintIsDroppedExactly | src/jan_setu/pipeline/core.py:551-798 | the exact steps that leave it there: confirming an urgent complaint, or taking the pending review of a registered one away |
| LifecycleRuns.AStaleReextraction | src/jan_setu/pipeline/core.py:551-691 | a run in which the citizen confirms while the model is asked, and the timeline ends in a status the row has left |
| LifecycleRuns.AStalePhotoCheck | src/jan_setu/pipeline/core.py:471-528 | the same without any re-extraction: the check of a replaced photo keeps the row's status and adds an entry that does not match it |
| LifecycleRuns.StatusesOffTheRecord | src/jan_setu/repositories/grievances.py:81-87 | a run after which three rows are in draft, processing and dispatching and their timelines do not say so |
| LifecycleRuns.AStrandedComplaint | src/jan_setu/pipeline/core.py:752-754 | a run in turn from the empty table to a registered complaint that nobody will find |
| LifecycleDriver.Tables.Confirm | src/jan_setu/pipeline/core.py:702-798 | finalize up to its commit writes what the decision requires, reports a duplicate of `m` exactly when the complaint joins `m` with its count plus one, a window exactly when it joins none, and goes on to dispatch exactly when it is urgent |
| LifecycleDriver.Tables.FinalizeGrievance | src/jan_setu/pipeline/core.py:702-798 | finalize goes on to dispatch exactly an urgent complaint, in a session of its own with others in between, and reports a duplicate or a window exactly as the rows say |
| LifecycleDriver.Tables.CancelGrievance | src/jan_setu/pipeline/core.py:801-805 | cancellation writes status and timeline of that row only |
| LifecycleDriver.Tables.DispatchGrievance | src/jan_setu/pipeline/core.py:808-895 | with anything done by others around its call, dispatching the same row included, dispatch is its steps of the system, also when it raises; on a route that is switched off it makes no call and leaves the row registered with a pending review and nothing else changed; otherwise it reports what the answer and the attempts read say |
| LifecycleDriver.Tables.Sweep | src/jan_setu/pipeline/core.py:898-926 | a sweep dispatches each row its query returned, in order, whoever else is dispatching it, goes on after one that raises, and returns their number |
| LifecycleDriver.Tables.ReextractGrievance | src/jan_setu/pipeline/core.py:551-691 | with anything done by others while the model is asked, a re-extraction is its load and its write: routing columns and an entry with the status loaded, or nothing |
| LifecycleDriver.Tables.RunPipeline | src/jan_setu/pipeline/core.py:230-548 | with anything done by others while the models are asked, a pipeline run or photo check is its load and its write: routing columns, the status column when it differs from the one loaded, and an entry in any case, or nothing |
| LifecycleDriver.Tables.AcceptPhotoMismatch | src/jan_setu/pipeline/core.py:424-468 | a mismatch is accepted exactly when the row was loaded as mismatched, and then written like a check that passed |
| LifecycleDriver.RetriesRunOut | src/jan_setu/pipeline/core.py:872-886 | under a department that keeps refusing, a row stays where the sweep finds it until exactly five attempts are spent, and has then failed |
| Jobs.KeysTellJobsApart | src/jan_setu/repositories/jobs.py:17-17 | two jobs have the same key exactly when grievance, stage and suffix agree |
| Jobs.PickedIsEarliestDue | src/jan_setu/repositories/jobs.py:35-54 | a claim takes eligible unlocked rows only, none under a running lease, none twice, earliest due first; one is passed over only for a full batch due no later |
| JobRows.EnqueuedRow | src/jan_setu/repositories/jobs.py:14-28 | a new job is pending, due at once, with five attempts, unless its key is taken |
| JobRows.ClaimedRows | src/jan_setu/repositories/jobs.py:31-58 | every column of every row after a claim: the rows taken were due and unlocked, and are processing for two minutes and one attempt further |
| JobRows.EndedRow | src/jan_setu/repositories/jobs.py:61-77 | every column after the end of an attempt: completed, out of attempts, or to be retried after its wait, where that differs from the row as loaded, and otherwise as the row has become |
| JobRows.EndedUndisturbed | src/jan_setu/repositories/jobs.py:61-77 | if nobody wrote in between, the row says how the attempt ended, is free, and due after its wait |
| JobRows.BackoffIsDelay | src/jan_setu/repositories/jobs.py:75-76 | the waits are 1, 2, 4, up to 256 and then 300 seconds |
| Jobs.QueueIsSound | src/jan_setu/repositories/jobs.py:14-77 | in every run, with crashes, late finishes and writes over rows that have moved on: attempts stay within the maximum, a dead letter has none left, keys are unique, and the work of a job begins at most that many times |
| Jobs.RowsAreSound | src/jan_setu/repositories/jobs.py:31-77 | if nothing is written to a row between the load and the write that end an attempt: a retry has attempts left and a row is leased exactly while processing |
| Jobs.RetryIsSpentExactlyByAClaimInBetween | src/jan_setu/worker.py:67-73 | a retry without attempts left comes about exactly when a failure is written that was loaded with attempts left and a claim has taken the last one since |
| Jobs.LeaseIsLeftExactlyByAClaimInBetween | src/jan_setu/worker.py:67-83 | lease and processing part exactly when a row loaded idle is claimed before the write of its status |
| SpentRetry.ARetryWithoutAttempts | src/jan_setu/worker.py:67-73 | a run from the empty table to a retry that no clock reading makes eligible |
| Jobs.ClaimableAgainExactly | src/jan_setu/repositories/jobs.py:31-77 | a job can be claimed again in some future exactly when attempts remain and it is not completed, or is completed while a worker holds an attempt that can reopen it |
| Jobs.StuckRows | src/jan_setu/repositories/jobs.py:38-49 | the rows no clock reading makes eligible are the completed ones, the dead letters, a last attempt left processing, and a retry whose last attempt was claimed |
| Jobs.CompletedIsLeftExactlyByAStaleFailure | src/jan_setu/repositories/jobs.py:68-77 | a completed job changes status exactly when a failure is written that was loaded in another status than it sets |
| Jobs.DelayDoublesToTheCap | src/jan_setu/repositories/jobs.py:75-76 | the delay doubles from attempt to attempt up to five minutes and is capped from the ninth attempt on |
| Jobs.RetryWaitsItsDelay | src/jan_setu/repositories/jobs.py:68-77 | a failed job with attempts left is eligible exactly from the end of its delay on |
| PunctualWorkers.OneWorkerOneSuccess | src/jan_setu/worker.py:57-84 | if workers finish within their lease: one worker at a time per job, one success at most, completed exactly when it succeeded, a retry has attempts left, leased exactly while processing |
| PunctualWorkers.CompletedIsFinal | src/jan_setu/repositories/jobs.py:61-77 | and a completed job stays completed whatever happens later |
| JobsDriver.Tables.EnqueuePipelineJob | src/jan_setu/repositories/jobs.py:14-28 | a new pending job unless its key is taken |
| JobsDriver.Tables.ClaimPipelineJobs | src/jan_setu/repositories/jobs.py:31-58 | the claim is one step of the queue; the returned attempts are of different rows, held by the caller and not begun |
| JobsDriver.Tables.Flush | src/jan_setu/repositories/jobs.py:61-77 | a flush writes the columns that differ from the loaded row and leaves the others as they are by then |
| JobsDriver.Tables.CompletePipelineJob | src/jan_setu/repositories/jobs.py:61-65 | completing is one write, computed from the row as it was loaded |
| JobsDriver.Tables.FailPipelineJob | src/jan_setu/repositories/jobs.py:68-77 | failing is one write, dead letter or delayed retry, computed from the row as it was loaded |
| JobsDriver.Tables.RunBatch | src/jan_setu/worker.py:57-84 | with anything done by others before, during and between load and write, every claimed job is run once and ends one way, and the two counters add up to the batch |
| JobsDriver.BatchIsARun | src/jan_setu/worker.py:57-84 | a worker's batch is a run of the queue, so what holds of every run holds of it |
| Throttle.RateLimits.ReserveSlot | src/jan_setu/pipeline/throttle.py:20-47 | the wait lasts until the provider is free, and is zero if it is; the next caller's slot is an interval after that; only this provider's row moves |
| Throttle.SlotsAreTheLeastSchedule | src/jan_setu/pipeline/throttle.py:38-41 | the slots are the one schedule that respects every request time and interval and is nowhere later than any other such schedule |
| Throttle.GapsAddUp | src/jan_setu/pipeline/throttle.py:38-41 | any two slots are apart by all the intervals between them |
| Throttle.RateIsBounded | src/jan_setu/pipeline/throttle.py:20-47 | with intervals of at least `d`, no half-open window of length `L` holds more than the ceiling of `L / d` slots |
| Throttle.BurstIsServedEvenly | src/jan_setu/pipeline/throttle.py:38-41 | a burst is served at exactly its interval, so the bound is met |
| Throttle.LateCallersLoseOnlyTheSlack | src/jan_setu/pipeline/throttle.py:21-25 | callers that wake at most `slack` late stay apart by the intervals less the slack |
| Throttle.ReservationGetsTheNextSlot | src/jan_setu/pipeline/throttle.py:30-41 | a reservation's slot depends on its own provider's requests only, whatever others reserve in between |
| Login.NormalizingTwiceIsOnce | src/jan_setu/auth.py:116-123 | normalizing a phone again changes nothing, so both counts of a request look at the same phone |
| Login.SecondCountNeverRefuses | src/jan_setu/auth.py:136-144 | with requests of a phone serialised, the count inside `create_verification` never refuses what the request's own count let through |
| Login.CountSinceExactly | src/jan_setu/auth.py:131-144 | the hourly count is the number of records since that instant |
| Login.HourlyLimit | src/jan_setu/auth.py:259-355 | in every closed hour a phone has at most `verification_max_per_hour` challenge records, and one more only when the hour's last request fell back to a code from an approval of the same hour |
| Login.FallbackExceedsByOne | src/jan_setu/auth.py:338-355 | the one more is reached, for every positive maximum |
| Login.SignInFollowsApproval | src/jan_setu/repositories/login_approvals.py:46-148 | every event that signs a browser in comes after the request that created its challenge and a Yes with that request's verifier, from its contact and number, in answer to the message its row was sent as, in time and before any later challenge; and it brings that request's nonce in time |
| Login.SignInHappensOnce | src/jan_setu/repositories/login_approvals.py:134-148 | no challenge signs in twice |
| Login.OneChallengeWaits | src/jan_setu/repositories/login_approvals.py:57-77 | at any time only the newest challenge of a phone can be waiting for an answer |
| Login.LoginRequests.RequestCode | src/jan_setu/auth.py:252-356 | answer and records of one request, field by field: the challenge holds the request's verifier, nonce, contact, number, expiry and message row, waiting challenges give way, a code is added exactly on fallback, a refusal leaves nothing |
| Login.RequestIsRecorded | src/jan_setu/auth.py:252-356 | the same of the request as a function, on the records alone |
| Login.ChallengesAreAskedFor | src/jan_setu/repositories/login_approvals.py:46-78 | in every run each challenge goes back to one accepted request and still holds what that request asked with |
| Login.TapDecidesExactly | src/jan_setu/repositories/login_approvals.py:94-131 | after a request answered with an approval, and while nothing settles its challenge, a tap decides it - as tapped - exactly when it carries the request's verifier, contact, number and the id its message was sent as, in time |
| Login.SignsInExactly | src/jan_setu/repositories/login_approvals.py:134-148 | after a Yes, whatever is asked or tapped since, the first browser with the request's nonce in time is signed in, and no other |
| Login.LoginRequests.CreateVerification | src/jan_setu/auth.py:131-156 | a code is recorded exactly when fewer than the maximum were in the last hour |
| Login.LoginRequests.DecideLoginApproval | src/jan_setu/repositories/login_approvals.py:94-131 | a tap decides exactly a pending, unexpired challenge that matches in verifier, contact, phone and the provider id of its outbound row |
| Login.LoginRequests.ConsumeLoginApproval | src/jan_setu/repositories/login_approvals.py:134-148 | a browser signs in exactly on an approved, unexpired challenge with its own nonce |
| Media.RerootsExactlyWhenCompatible | src/jan_setu/pipeline/media.py:60-77 | every file below one root maps to the same file below another exactly when the roots are equal, or the stored root's first `uploads` is its last component and neither root lies below the other |
| Media.ThereAndBack | src/jan_setu/pipeline/media.py:60-77 | between roots whose only `uploads` is the last component, a file keeps its place and there-and-back is the identity |
| Media.LandsBelowExactly | src/jan_setu/pipeline/media.py:69-77 | a stored path ends up below the root exactly unless it is absolute, not below the root and names no `uploads` |
| Media.ResolvingTwiceIsOnce | src/jan_setu/pipeline/media.py:60-77 | resolving a resolved path changes nothing, for any root and path |

## Left out

- Wording and payloads of messages, and the choice of wording: a reply is its kind, key and button ids.
- HTTP, Graph, mail, language-model, speech and geocoding calls: their results are arguments.
- Idempotency keys of replies are structured values, one shape per family, not strings; job keys are strings.
- A turn has one clock reading for its several calls of the clock; dispatch, jobs, throttle and login have each reading separately.
- The two text predicates that recognise verification codes and status queries: their verdicts come with the message.
- The replies' wording after a login decision or a verification code, `upsert_contact`, contact names.
- A location with a latitude but no longitude: the turn raises there, which is a rolled-back turn here.
- Follow-up on an expired conversation returns without a commit, so the expiry stays unwritten; modelled as the code does it.
- Row order of queries without ORDER BY, and of ties: table order.
- `process_pending_events`, `sweep_stuck_processing` and the worker's poll loop: they call the modelled operations again.
- Several challenges on one message row: the send-time check takes the last that qualifies.
- Distance and bounding box are abstract, and so are the rows of the category table: any table that loads. `extraction_confidence` is not read by the policy.
- Official console actions on review fields, `human_id` numbering, receipts, extraction, transcription, image checks; `image_recheck_cap` is never enforced by the code and does not occur here.
- Official decisions and `update_review` write routing fields and a review status; both are the `Review` event.
- LifecycleDriver.Tables.ReextractGrievance, LifecycleDriver.Tables.RunPipeline: of their columns only those the lifecycle reads, with any values; how the model's answer becomes those values, and facts and flags, are not worked out.
- What a session keeps of a row it has loaded is modelled where it decides something: the attempts a sweep checks, the job a worker writes back, the status a re-extraction repeats or a check does not write, the attempts and status a dispatcher writes back. `last_error` is not modelled.
- LifecycleDriver.Tables.FinalizeGrievance: reads and writes in one step; the window between its read of the master and its write is covered by the lemmas about `Commit` with a stale verdict.
- JobsDriver.Tables.RunBatch: a job row deleted while its job runs is not modelled; rows are never deleted here.
- Login: requests for one phone are served one at a time and each phone has its own records; two requests at the same moment could both pass the count.
- Login: the provider's ids of sent messages come with an event of their own.
- Login.LoginRequests.CreateLoginApproval: the expiry is an argument, as is whether the reply was stored and sent.
- Throttle intervals are whole microseconds; the conversion from a float is not modelled.
- Media: a path is its components; how a text splits into components, drive letters and double leading slashes are not modelled.
- Refresh tokens, access tokens and hashing: hashes are tokens.
- The id of a new draft is an argument; where a theorem needs it to be new, it says so.
- No row is ever deleted; cascades are not part of this model.
