# Coke runtime: verified models

Dafny models of the concurrent parts of the Coke runtime, with proofs about every run of them:

- the interactive turn supervisor and the worker's drain loop around it (`coke/worker/interactive_supervisor.py`, `coke/worker/__main__.py`), with the close boundary of a turn (`coke/turn/runner.py`);
- the personal WeChat connector's poll with bounded redelivery (`provider_edges/wechat_personal_connector/app.py`);
- the incremental parser of reply segments (`coke/llm/agno_interaction_agent.py`), over JSON string literals as section 7 of RFC 8259 defines them;
- the outbox, the Redis work stream and its consumers, and the Redis conversation lock (`coke/infra/redis.py`, `coke/worker/outbox_relay.py`, `coke/worker/stream_consumer.py`, `coke/turn/locks.py`);
- reply delivery, streamed and batched, the waiting notice with its circuit breaker, and the scheduler's scan (`coke/turn/runner.py`, `coke/scheduler/__main__.py`).

## How it is built

Each part has three layers. Functions on values say what one operation or one atomic step does (`Supervisor.Submit`, `WorkStream.Apply`, `ConnectorPoll.AfterPoll`). Classes and loop methods have the source's own fields and control flow and are proved to do exactly that. Lemmas then speak about the functions: about every sequence of steps where several processes interleave, about every input where one call matters. What a call leaves in each container is also said of the containers alone, so no result rests on a function agreeing with itself; the JSON decoder is proved against a printer that shares nothing with it.

| part | files |
|---|---|
| JSON strings, parser, round trip | `Texts.dfy`, `JsonPrinting.dfy` (literals as the standard prints them), `JsonStrings.dfy` (the decoder), `ReplySegmentParser.dfy`, `ReplyRoundTrip.dfy`, `ReplyPartials.dfy` (unfinished and malformed texts) |
| connector poll | `ConnectorPoll.dfy` (walk, odometer, objects), `ConnectorSessions.dfy` (stored sessions over runs of turns) |
| work stream | `WorkStream.dfy` (store, steps), `WorkStreamSafety.dfy` (invariant, theorems), `WorkStreamObjects.dfy` (objects) |
| conversation lock | `ConversationLock.dfy` |
| one turn | `TurnTask.dfy` |
| supervisor | `Supervisor.dfy` (operations), `SupervisorInvariant.dfy`, `SupervisorResults.dfy`, `SupervisorMethods.dfy` (what they keep), `InteractiveTurnSupervisor.dfy` (the object) |
| worker and whole runs | `SupervisorRuns.dfy` (steps), `WorkerDrain.dfy` (the drain as methods, tasks moving on between its parts), `SupervisorHistory.dfy`, `SupervisorTheorems.dfy`, `SupervisorCancels.dfy` (each call's effect, and what the provider is asked), `SupervisorSpeech.dfy`, `SupervisorRetries.dfy`, `SupersededRetry.dfy` |
| delivery | `ReplyDelivery.dfy`, `StreamedDelivery.dfy`, `DeliveredRequests.dfy` (what leaves, in terms of stored rows), `WaitingDelivery.dfy` |
| scheduler | `DueFires.dfy` |

`dafny verify dfyconfig.toml` checks everything.

In the supervisor's state, `ledger`, `collected` and `failed` are history: the submissions accepted, in order, with what became of each, and the completions and failures ever queued. No decision of the modelled code reads them, except that a submission's number is its place in the ledger. In the worker, `published` is the log of replies sent; in the lock, `grants` is the log of promises made to holders.

## What the proofs found

- **Cursor progress needs distinct message ids.** A batch whose deliverable messages repeat an id, all of whose posts are rejected, keeps the cursor for ever: the counter of the repeated id is cleared at the cap and starts again at its next occurrence. With distinct ids the counters are a base-5 odometer and the cursor moves within 5^n polls (`ConnectorPoll.AdvancesIffDistinct`).
- **A superseded turn that ends with an error can be started again.** The failure path does not ask whether the failed turn had been cancelled for a newer message. It starts the turn again exactly if the turn is interactive, under the retry limit, and nothing of its conversation waits, runs, or is about to be published (`SupervisorRetries.SupersededTurnIsRetriedIff`). One run in which this happens, after the newer turn was drained, is `SupersededRetry.SupersededTurnIsRetried`. What the restarted turn then does, replay and freshness guard included, is not modelled.
- **A superseded turn has spoken exactly if it was handed a segment before any of its reply rows was stored** (`SupervisorSpeech.SupersededSpokeIff`, with a run in `SupervisorSpeech.SpeakingFirstThenSuperseded`). The delivery port commits the close only when it finds recorded rows; the pipeline stores them first.
- **An event is lost exactly when a relay dies between reserving and appending it** (`WorkStreamSafety.RecoverableIff`, with a run in `WorkStreamSafety.CrashMidAppend`): the reservation then stays for ever and no process removes it.
- **A waiting turn can be started only to be cancelled.** When a trigger arrives after a closed turn has ended and before anyone collected it, `submit` collects that turn, starts the submission that waited behind it, and supersedes it at once, asking the provider to cancel a run that has not begun (`SupervisorCancels.ArrivalCancels`).
- **Incremental stream events lose text** exactly when one of them happens to begin with all the text before it, because it is then read as a repetition (`ReplyRoundTrip.IncrementalIff`, with an input in `ReplyRoundTrip.RepeatedStartIsLost`).
- **A due fire can be in no outbox row.** A scan that meets an owner and time already queued adds nothing, so a fire claimed since then for the same owner and time is left out (`DueFires.FireIsQueuedIff`, with an input in `DueFires.LateFireIsInNoRow`).

Two negative results are about the functions and not findings about the code. Two turns can share an idempotency key if turn ids contain colons (`DeliveredRequests.ColonsCollide`); turn ids drawn as UUIDs contain none, and then keys of different turns differ (`DeliveredRequests.KeysOfTurnsDiffer`). And streaming segment by segment differs from the batch when there are several recipients and several segments (`StreamedDelivery.StreamIsBatchIff`). The delivery port serves inbound turns only, and these have one recipient; nor does any caller pass `skip_delivered_segment_count`, which `StreamedDelivery.StreamThenRestIsBatch` is about.

## Assumptions

- Each method of the supervisor is one atomic step: none suspends, and the loop runs them one at a time. A cancel request reaches a task at its next resumption and is not swallowed: a task asked to cancel runs no more of its own code, but may still end with a value, an error or a cancellation.
- Walking a dictionary takes its keys in some order; the order is a parameter. The theorems about runs hold for every order.
- Each Redis command, and each of the two ownership scripts, is one atomic step on one store with one clock. An XADD that raises appended nothing. Lock tokens are not drawn twice.
- Webhook answers, provider outcomes, handler failures, commits and publishes are arbitrary choices, given as parameters.
- Identifiers that are only compared are abstract types. Message ids of outbound rows and owner ids of reminders, which are also sorted, stand for their place in that order.
- Every claimed fire has one id for each reminder and due time, and idempotency keys of different outbox events differ.

## Model

| member | source | states |
|---|---|---|
| SupervisorTheorems.ConservationOfSubmissions | coke/worker/interactive_supervisor.py:75-102 | In every reachable state each accepted submission is in exactly one of: active, pending, retired, collected, replaced by a newer one of its conversation |
| SupervisorTheorems.HeldOnce | coke/worker/interactive_supervisor.py:68-73 | No container holds a submission twice |
| SupervisorTheorems.NewestGetsItsTurn | coke/worker/interactive_supervisor.py:79-102 | The newest submission of a conversation is never retired, replaced, or asked to cancel: it runs, waits, or was collected for publishing |
| SupervisorTheorems.OneUncancelledTask | coke/worker/interactive_supervisor.py:83-102 | Two running tasks that were not asked to cancel belong to different conversations |
| SupervisorCancels.EachSupersededIsAsked | coke/worker/interactive_supervisor.py:87-100 | Over every run, with the cancels that arrivals added as history: each superseded submission has exactly one, naming its own trigger and run id, and no other submission has any |
| SupervisorCancels.SupersededIff | coke/worker/interactive_supervisor.py:87-91 | A submission's task was asked to cancel exactly if the submission is retired or was collected as superseded |
| SupervisorCancels.ArrivalCancels | coke/worker/interactive_supervisor.py:75-102 | In every reachable state a trigger that arrives adds one cancel, for the run of the turn it supersedes (the active one if it has neither ended nor committed its close, or the one that waited behind a turn that ended), and none otherwise |
| SupervisorCancels.RunIdGiven | coke/worker/interactive_supervisor.py:76-77 | A turn runs under its trigger's agent run id, or its trigger id if there is none; the rest of the trigger stays |
| SupervisorCancels.SubmitStarts | coke/worker/interactive_supervisor.py:102-102 | With no active turn: the containers and the new ledger entry after submit |
| SupervisorCancels.SubmitWaits | coke/worker/interactive_supervisor.py:84-86 | Behind a turn whose close is committed only the waiting submission changes |
| SupervisorCancels.SubmitSupersedes | coke/worker/interactive_supervisor.py:87-102 | Over a turn neither ended nor closed: its task is asked to cancel, it is retired without publishing, one provider cancel is added, the new turn starts |
| SupervisorCancels.SupersedingEntry | coke/worker/interactive_supervisor.py:87-102 | Then the ledger has the new submission active and the old one retired by it |
| SupervisorCancels.SubmitCollects | coke/worker/interactive_supervisor.py:80-82 | Over a turn that has ended, submit is collecting that turn and then submitting to what is left |
| SupervisorCancels.CollectedFields | coke/worker/interactive_supervisor.py:182-187 | Collecting: what each container holds afterwards, what waited having started under its run id |
| SupervisorCancels.CollectedResult | coke/worker/interactive_supervisor.py:221-241 | Collecting: the one completion, failure or nothing that the turn leaves |
| SupervisorCancels.NothingElseAsks | coke/worker/interactive_supervisor.py:104-119 | No step but an arrival or an explicit request adds a provider cancel, and only drains and retries drop any, those that ended |
| SupervisorCancels.EndedCancels | coke/worker/interactive_supervisor.py:201-219 | Running cancels stay and broken ones fail, one by one and in order |
| SupervisorCancels.OneEndedCancel | coke/worker/interactive_supervisor.py:201-219 | What becomes of a single cancel in each of its three states |
| SupervisorCancels.CancelsRequested | coke/worker/interactive_supervisor.py:110-119 | Explicit requests are asked one by one, in order |
| SupervisorCancels.OneCancelRequested | coke/worker/interactive_supervisor.py:110-119 | A single entry asks once, or not at all if it is no run id |
| SupervisorCancels.BrokenCancelsFail | coke/worker/interactive_supervisor.py:201-219 | After a drain the failures are those of retired turns, then one for each broken provider cancel, then those of active turns |
| SupervisorCancels.EndedRetiredAreTaken | coke/worker/interactive_supervisor.py:189-199 | Both drains take exactly the retired turns that have ended |
| SupervisorCancels.SubmitIfIdleTakesEnded | coke/worker/interactive_supervisor.py:121-123 | submit_if_idle, accepting or not, first takes the retired turns and provider cancels that have ended |
| SupervisorTheorems.PendingBehindCommitted | coke/worker/interactive_supervisor.py:84-86 | A submission waits only behind an active turn whose close is committed and which is not asked to cancel |
| SupervisorTheorems.ClosedTurnIsCollectedOnce | coke/worker/interactive_supervisor.py:182-187 | Over every continuation of a run, a turn that committed its close is never asked to cancel, stays active until it is collected for publishing, and its value is queued exactly once |
| SupervisorTheorems.DrainHandsOn | coke/worker/interactive_supervisor.py:159-167 | Draining hands on each conversation in the order whose turn is done: the turn leaves, what waited has started; other conversations are untouched |
| SupervisorTheorems.PendingIsNeverStranded | coke/worker/interactive_supervisor.py:154-180 | In any reachable state either drain starts what waits behind a done turn, and the done turn is gone |
| SupervisorTheorems.PublishedInOrder | coke/worker/__main__.py:188-221 | In every reachable state published, then in flight, then queued completions are all the completions ever collected, in order |
| SupervisorTheorems.PublishedAtMostOnce | coke/worker/__main__.py:205-214 | A published completion belongs to a turn that was never superseded, carries the value it returned, and is the only one of that turn |
| SupervisorTheorems.EverythingIsPublished | coke/worker/__main__.py:215-221 | When nothing is in flight or queued, every turn collected with a value and not superseded has been published, whatever commits and publishes failed before |
| SupervisorSpeech.SpokeEarlyIff | coke/turn/runner.py:364-380 | For every task of every run: it sent a segment before its close exactly if the run handed it one before any of its reply rows was stored |
| SupervisorSpeech.SupersededSpokeIff | coke/worker/interactive_supervisor.py:84-100 | A turn that was asked to cancel has spoken exactly if it was handed a segment before any of its reply rows was stored, whatever other turns did |
| SupervisorSpeech.SupersededTurnNeverSpoke | coke/worker/interactive_supervisor.py:84-100 | A turn whose rows are stored first has sent nothing if asked to cancel, and its close precedes every segment |
| SupervisorSpeech.SpeakingFirstThenSuperseded | coke/worker/interactive_supervisor.py:248-251 | The condition is needed: a concrete run in which a superseded turn has spoken |
| TurnTask.RepliedCommitsOnce | coke/turn/runner.py:744-745 | On the replied path the close is committed exactly once, before all segments, and each segment is sent once |
| TurnTask.OtherEndings | coke/turn/runner.py:1752-1785 | A recovery reply is committed before it is sent; a quiet turn only commits; the runner closes a pipeline that sent nothing |
| TurnTask.CancelledDoesNothing | coke/worker/interactive_supervisor.py:87-87 | A task asked to cancel, or ended, shows nothing more; it may still end, once |
| SupervisorRetries.StartsAreBounded | coke/worker/__main__.py:289-300 | Over any run at most two tasks are started for a submission and its retries together |
| SupervisorRetries.RetriesDoNotFork | coke/worker/__main__.py:251-271 | Retries of one submission are told apart by their depth: no failed submission is retried twice |
| SupervisorRetries.OnlyFailedTurnsAreRetried | coke/worker/__main__.py:289-300 | A retry is the trigger of an interactive turn that failed and had no count, with count one, and the only retry of that turn |
| SupervisorRetries.EveryFailureIsLookedAt | coke/worker/__main__.py:247-271 | Each turn that ended with an error has exactly one entry among the failures ever queued, and those still to be looked at are the last of them |
| SupervisorRetries.AcceptedIff | coke/worker/interactive_supervisor.py:121-140 | submit_if_idle accepts exactly if, when it is called, nothing of the conversation waits, no completion of it is undrained, and its active turn, if any, ended without a value |
| SupervisorRetries.RetriedIff | coke/worker/__main__.py:265-271 | In every reachable world, looking at a failure starts the failed trigger again exactly if it is an interactive turn's, under the limit, and its conversation is in that state; otherwise nothing is submitted |
| SupervisorRetries.SupersededTurnIsRetriedIff | coke/worker/__main__.py:289-300 | So a superseded turn whose failure is looked at is started again exactly under these conditions |
| SupervisorRetries.SubmitIfIdleIsPolite | coke/worker/interactive_supervisor.py:121-140 | submit_if_idle touches no existing task, replaces no waiting submission, and accepts only when the conversation has no running turn, nothing waiting and no undrained completion |
| SupersededRetry.SupersededTurnIsRetried | coke/worker/interactive_supervisor.py:221-241 | A concrete run in which a superseded turn that failed is started again after the newer turn ended with a value and was drained |
| SupervisorRuns.RunKeeps | coke/worker/__main__.py:188-262 | Every run keeps places, ledger, retry links and the publish log |
| SupervisorHistory.RunKept | coke/worker/interactive_supervisor.py:75-241 | Submissions keep number and trigger, a committed close stays committed, the queue of completions only grows |
| SupervisorMethods.SubmitGood | coke/worker/interactive_supervisor.py:75-102 | submit keeps places, ledger, retry links and the publish log |
| SupervisorMethods.DrainCompletedGood | coke/worker/interactive_supervisor.py:159-167 | What drain_completed hands over comes next in publishing order |
| SupervisorMethods.RestoreGood | coke/worker/interactive_supervisor.py:169-170 | Completions put back come before those queued since |
| SupervisorRuns.RetryGood | coke/worker/__main__.py:251-271 | One round over the failures keeps everything and leaves the rest of the failures fresh |
| WorkerDrain.DrainKeepsPublishLog | coke/worker/__main__.py:188-221 | However many drained completions were published before something raised, and whatever tasks did meanwhile, the publish log stays exact |
| WorkerDrain.Worker.DrainSupervisorCompletions | coke/worker/__main__.py:188-221 | With tasks moving on between its parts, the drain publishes a prefix of what it drained, in order, raises exactly if something remains, and puts exactly the rest back in front |
| WorkerDrain.Worker.DrainSupervisorFailures | coke/worker/__main__.py:239-271 | The failures drained are gone through in order, each retried as the policy says |
| WorkerDrain.EveryFailureGetsItsChance | coke/worker/__main__.py:251-271 | Each drained turn failure has been started again when the loop is over exactly if that was allowed (mode, count, quiet conversation) at the moment its turn came |
| WorkerDrain.Worker.PublishAll | coke/worker/__main__.py:201-214 | The commit and the loop that pops what remains |
| InteractiveTurnSupervisors.InteractiveTurnSupervisor.Submit | coke/worker/interactive_supervisor.py:75-102 | The method's whole effect on the six containers is the submit step |
| InteractiveTurnSupervisors.InteractiveTurnSupervisor.SubmitIfIdle | coke/worker/interactive_supervisor.py:121-140 | The method's whole effect, and it returns true exactly if the conversation was idle |
| InteractiveTurnSupervisors.InteractiveTurnSupervisor.StartTrigger | coke/worker/interactive_supervisor.py:142-152 | The method's whole effect is the start step |
| InteractiveTurnSupervisors.InteractiveTurnSupervisor.StartPendingIfAny | coke/worker/interactive_supervisor.py:154-157 | The method's whole effect: what waits, if anything, leaves and starts |
| InteractiveTurnSupervisors.InteractiveTurnSupervisor.DrainCompleted | coke/worker/interactive_supervisor.py:159-167 | Returns and clears what collecting left queued, with the dictionary snapshot walked in any order |
| InteractiveTurnSupervisors.InteractiveTurnSupervisor.DrainFailures | coke/worker/interactive_supervisor.py:172-180 | Returns and clears the failures that collecting left |
| InteractiveTurnSupervisors.InteractiveTurnSupervisor.RestoreCompleted | coke/worker/interactive_supervisor.py:169-170 | Puts completions back in front |
| InteractiveTurnSupervisors.InteractiveTurnSupervisor.CollectCompleted | coke/worker/interactive_supervisor.py:182-187 | The turn leaves, its result is taken, what waited starts |
| InteractiveTurnSupervisors.InteractiveTurnSupervisor.CollectDoneRetired | coke/worker/interactive_supervisor.py:189-199 | The loop that rebuilds the list equals collecting each done turn where it stands |
| InteractiveTurnSupervisors.InteractiveTurnSupervisor.CollectDoneCancelTasks | coke/worker/interactive_supervisor.py:201-219 | Keeps the running cancels, queues the broken ones as failures, in order |
| InteractiveTurnSupervisors.InteractiveTurnSupervisor.CollectTaskResult | coke/worker/interactive_supervisor.py:221-241 | A cancellation is dropped, an error queued as failure, a value queued only when publishing |
| InteractiveTurnSupervisors.InteractiveTurnSupervisor.CancelProviderRuns | coke/worker/interactive_supervisor.py:104-119 | Done cancels are collected, entries that are no run id are skipped, and one cancel is added for each of the others, in order |
| ConnectorPoll.WalkTurnsOdometer | provider_edges/wechat_personal_connector/app.py:483-521 | With distinct ids a poll that keeps the cursor turns the base-5 odometer forward, by exactly one when all posts are rejected |
| ConnectorPoll.PollsKeptBounded | provider_edges/wechat_personal_connector/app.py:483-533 | Polls that keep the cursor never outnumber the readings the odometer has left |
| ConnectorPoll.CursorAdvances | provider_edges/wechat_personal_connector/app.py:481-533 | Whatever the webhook does, one of any 5^n polls of n distinct messages moves past them |
| ConnectorPoll.CursorMovesWithin | provider_edges/wechat_personal_connector/app.py:481-533 | With distinct ids and a next cursor supplied, one of any 5^n polls stores that cursor, and the stored cursor stays put until then |
| ConnectorPoll.AllRejectedKeepsLongest | provider_edges/wechat_personal_connector/app.py:497-518 | Rejecting every post keeps the cursor for exactly the readings left; from empty counters the poll that moves is number 5^n |
| ConnectorPoll.EmptyOdometer | provider_edges/wechat_personal_connector/app.py:860-872 | Empty counters are reading zero |
| ConnectorPoll.AdvancesIffDistinct | provider_edges/wechat_personal_connector/app.py:483-533 | Progress holds of a batch exactly if its deliverable messages have distinct ids |
| ConnectorPoll.RepeatedIdNeverFinishes | provider_edges/wechat_personal_connector/app.py:497-518 | With a repeated id and every post rejected no poll ever finishes |
| ConnectorPoll.NothingSkippedEarly | provider_edges/wechat_personal_connector/app.py:497-533 | When a poll moves past a batch, each message was accepted by it, or rejected at least five times with no acceptance between, and keeps no counter |
| ConnectorPoll.StoredCountersInRange | provider_edges/wechat_personal_connector/app.py:860-872 | Over any polls stored counters stay between 1 and 4 |
| ConnectorPoll.PollRetryDelaySeconds | provider_edges/wechat_personal_connector/app.py:855-857 | Every delay is between 1 and 32 seconds |
| ConnectorPoll.AttemptsRoundTrip | provider_edges/wechat_personal_connector/app.py:860-872 | The counters read back after a poll are those the walk left |
| ConnectorPoll.ConnectorState.PollSessionOnce | provider_edges/wechat_personal_connector/app.py:461-533 | The loop stores exactly the session after the walk and returns its number of deliveries |
| ConnectorPoll.ConnectorState.PollInTurn | provider_edges/wechat_personal_connector/app.py:434-457 | A session is skipped while backing off, polled, or its failed fetch recorded: error, count and delay, with connection, credentials, cursor and counters kept unless it expired |
| ConnectorPoll.ConnectorState.PollOnce | provider_edges/wechat_personal_connector/app.py:423-458 | The sessions take their turns in any order, each at its own time, and the number returned is the sum of their deliveries |
| ConnectorPoll.TurnsAreIndependent | provider_edges/wechat_personal_connector/app.py:434-457 | After such a walk each session is what its own turn makes of it, and the others are untouched |
| ConnectorSessions.SkippedTurn | provider_edges/wechat_personal_connector/app.py:434-436 | A session that is not connected, not due or without credentials stays as it is |
| ConnectorSessions.FailedTurn | provider_edges/wechat_personal_connector/app.py:446-457 | A failed fetch: error stored, count one higher, next poll 1 to 32 seconds off, all else kept; an expired session is disconnected and loses token, cursor and context tokens |
| ConnectorSessions.FinishedTurn | provider_edges/wechat_personal_connector/app.py:521-533 | A finished batch: the cursor moves to the next one if supplied, error and count are cleared, connection and credentials kept |
| ConnectorSessions.StoppedTurn | provider_edges/wechat_personal_connector/app.py:499-512 | A batch stopped by a rejection: cursor kept, that rejection stored, count one higher, back-off 1 to 32 seconds |
| ConnectorSessions.LostOnlyWhenExpired | provider_edges/wechat_personal_connector/app.py:446-457 | Over any run of turns a session keeps connection and token exactly if no poll found it expired; otherwise it has neither |
| ConnectorSessions.CursorMovesOnlyWhenFinished | provider_edges/wechat_personal_connector/app.py:446-533 | Over any run of turns the cursor is the old one, cleared because the session expired, or the next cursor of a batch that was finished |
| ConnectorSessions.DelayDoubles | provider_edges/wechat_personal_connector/app.py:855-857 | The delay starts at one second and doubles with each error in a row up to 32 |
| ConnectorSessions.WalkDelivers | provider_edges/wechat_personal_connector/app.py:483-520 | A walk delivers the accepted ones of the messages it posts, and stops at the last one posted, with its error |
| ConnectorSessions.StopsAtFirst | provider_edges/wechat_personal_connector/app.py:497-518 | With distinct ids a walk stops at the first message rejected fewer than five times counting this one, and finishes if there is none |
| ConnectorSessions.WalkCounters | provider_edges/wechat_personal_connector/app.py:498-519 | The counter of the message stopped at goes up by one, those of messages passed are cleared, those of messages not posted stay |
| ConnectorSessions.WalkTokens | provider_edges/wechat_personal_connector/app.py:488 | Each sender is left with the context token of its last posted message |
| ConnectorSessions.DeliverableJoin | provider_edges/wechat_personal_connector/app.py:483-486 | Messages that survive cleaning are walked in the order served |
| ConnectorSessions.DeliveriesAddUp | provider_edges/wechat_personal_connector/app.py:433-458 | The number returned is the sum of what each polled session delivered by itself |
| JsonStrings.ScanSpelled | coke/llm/agno_interaction_agent.py:827-831 | Whatever the printer of section 7 of RFC 8259 writes for a string (plain, short escape, four hexadecimal digits in either case, surrogate pair) is decoded to the code points that were written, wherever it stands |
| JsonStrings.ScanSound | coke/llm/agno_interaction_agent.py:827-831 | The decoder accepts nothing else: whatever it reads is a printing of what it returns |
| JsonStrings.ScannedIff | coke/llm/agno_interaction_agent.py:827-831 | Both directions: a string is read exactly if a literal of it stands there |
| JsonStrings.ScanStable | coke/llm/agno_interaction_agent.py:829-832 | A literal complete in a buffer reads the same however the buffer grows |
| ReplySegmentParser.SkipJsonWhitespace | coke/llm/agno_interaction_agent.py:873-876 | The loop finds the first position that is not whitespace |
| ReplySegmentParser.Punctuation | coke/llm/agno_interaction_agent.py:823-876 | The characters and the key looked for, by their numbers |
| ReplySegmentParser.CompleteStringArrayElements | coke/llm/agno_interaction_agent.py:842-870 | The loop returns the elements that are complete and not followed by a bad delimiter |
| ReplySegmentParser.CompleteReplySegmentsFromBuffer | coke/llm/agno_interaction_agent.py:820-839 | The loop finds the "segments" array and returns its complete elements |
| ReplySegmentParser.ReplySegmentStreamParser.Feed | coke/llm/agno_interaction_agent.py:808-817 | One call appends the text and returns the elements not yet emitted |
| ReplySegmentParser.PrefixLaw | coke/llm/agno_interaction_agent.py:820-870 | For arbitrary text, a longer buffer keeps every element, or loses only its last one and only to a bad delimiter |
| ReplySegmentParser.EmittedIsLongestParse | coke/llm/agno_interaction_agent.py:808-817 | For arbitrary chunks, what was emitted is the longest parse over the buffers fed, so nothing is emitted twice or taken back |
| ReplyRoundTrip.ParsesReply | coke/llm/agno_interaction_agent.py:820-870 | A printed reply parses to exactly its segments, escapes and whitespace in any form |
| ReplyRoundTrip.StreamingRoundTrip | coke/llm/agno_interaction_agent.py:803-876 | For every printed reply and every way of cutting it, feed returns exactly the segments, in order, each once |
| ReplyPartials.ElementsArePrompt | coke/llm/agno_interaction_agent.py:865-867 | A reply cut right after an element's closing quote already yields that element and all before it |
| ReplyPartials.ElementsSoFar | coke/llm/agno_interaction_agent.py:847-870 | Elements that a comma follows are returned before whatever comes of the rest |
| ReplyPartials.BadDelimiter | coke/llm/agno_interaction_agent.py:862-864 | A string followed by neither a comma nor a bracket is not returned, nor anything after it |
| ReplyPartials.BrokenString | coke/llm/agno_interaction_agent.py:855-858 | An incomplete or malformed string ends the reading of the array |
| ReplyPartials.BrokenStringEndsSearch | coke/llm/agno_interaction_agent.py:827-830 | An incomplete or malformed string ends the search for the array |
| ReplyPartials.KeyWithoutArray | coke/llm/agno_interaction_agent.py:833-836 | The key with a colon but no bracket after it ends the search |
| ReplyPartials.NoMoreStrings | coke/llm/agno_interaction_agent.py:823-839 | A text without strings has no array |
| ReplyRoundTrip.EveryListIsPrintable | coke/llm/agno_interaction_agent.py:803-876 | Every list of segments has a printed reply |
| ReplyRoundTrip.DeltasAddUp | coke/llm/agno_interaction_agent.py:879-883 | The deltas fed add up to the text held, whatever the events |
| ReplyRoundTrip.CumulativeEventsRoundTrip | coke/llm/agno_interaction_agent.py:200-209 | Events that repeat a growing reply yield its segments |
| ReplyRoundTrip.IncrementalIff | coke/llm/agno_interaction_agent.py:879-883 | Incremental events are held whole exactly if none begins with everything before it; otherwise text is lost |
| ReplyRoundTrip.RepeatedStartIsLost | coke/llm/agno_interaction_agent.py:879-883 | It happens: of any two events of which the second begins with the first, that beginning is held once |
| WorkStreamSafety.AtMostOneEntry | coke/infra/redis.py:116-140 | Over every interleaving with crashes anywhere an event has at most one un-acknowledged entry, and such an entry implies its dedup key |
| WorkStreamSafety.AckedWasProcessed | coke/worker/stream_consumer.py:92-109 | An acknowledged entry's event was marked processed |
| WorkStreamSafety.NoEventLost | coke/worker/outbox_relay.py:54-67 | An unprocessed event can be published again, is held by a live reservation, or has an entry to reclaim, unless a relay crashed between reserving and appending |
| WorkStreamSafety.CrashMidAppend | coke/infra/redis.py:119-124 | It happens: a relay that reserves and dies leaves its event unprocessed and not recoverable |
| WorkStreamSafety.CrashIsFinal | coke/infra/redis.py:119-132 | After such a crash nothing any process does makes the event recoverable |
| WorkStreamSafety.RecoverableIff | coke/infra/redis.py:116-140 | An unprocessed event is recoverable exactly if no relay crashed there |
| WorkStreamSafety.RunKeeps | coke/infra/redis.py:116-165 | At every moment each dedup key that may still be deleted has exactly one holder entitled to delete it |
| WorkStreamObjects.PublishIsFiveSteps | coke/infra/redis.py:107-140 | A relay's own steps without interference are exactly one publish_event |
| WorkStreamObjects.XackIsFourSteps | coke/infra/redis.py:158-165 | A consumer's own steps from a committed mark are exactly one xack |
| WorkStreamObjects.RedisWorkStream.PublishEvent | coke/infra/redis.py:107-140 | Publishes once: nothing if the key is there or the append raises, else one entry and both keys; the answer is what the dedup key then holds |
| WorkStreamObjects.RedisWorkStream.Xack | coke/infra/redis.py:158-165 | Acknowledges, and forgets both keys only when the acknowledgement counted |
| WorkStreamObjects.OutboxRelay.PublishUnprocessed | coke/worker/outbox_relay.py:54-67 | Rows before the first failure are marked published; each that had no key is a new entry, in row order and once, and its key and its entry name each other; keys and entries of other events, and acknowledgements, are unchanged |
| WorkStreamObjects.RowsPublished | coke/worker/outbox_relay.py:54-67 | The same of publishing any rows, as a law of the store |
| WorkStreamObjects.FreshRowsMeans | coke/infra/redis.py:116-119 | The rows appended are those without a key, each once; more rows only add after them |
| WorkStreamObjects.StreamConsumer.HandleReceived | coke/worker/stream_consumer.py:92-109 | Messages before the first failing one are consumed in order; the failing one is left alone, and only events handled before pass without their handler |
| WorkStreamObjects.ConsumeMeans | coke/worker/stream_consumer.py:92-109 | Consuming acknowledges exactly the messages given and handles each event not handled before exactly once |
| WorkStreamObjects.ConsumedKeysAreFreed | coke/infra/redis.py:158-165 | Consuming deletes exactly the dedup keys and names of the messages it acknowledged |
| ConversationLock.ValidityNeverOverlaps | coke/infra/redis.py:22-68 | Over every interleaving of acquire, heartbeat, release and expiry, no instant is promised to two holders of one lock |
| ConversationLock.PromiseIsKept | coke/turn/locks.py:37-72 | While a promise lasts the store agrees that the lock is that holder's |
| ConversationLock.PromiseSurvivesOthers | coke/infra/redis.py:44-68 | Nothing but time and the holder's own release ends a promise: after any step of another process the lock is still that holder's |
| ConversationLock.ConversationLockManager.Acquire | coke/turn/locks.py:37-50 | Takes the lock exactly if its key is absent or expired, until now plus the time to live; otherwise nothing changes |
| ConversationLock.ConversationLockManager.HeartbeatLock | coke/turn/locks.py:65-69 | Exactly if owned moves the expiry to now plus the time to live; otherwise changes no key and records a loss |
| ConversationLock.ConversationLockManager.ReleaseLock | coke/turn/locks.py:71-72 | Exactly if owned deletes the key; otherwise nothing changes |
| ConversationLock.ReleasedCanBeTaken | coke/infra/redis.py:28-33 | In every reachable state a holder that releases leaves the key to whoever asks next |
| ConversationLock.HeartbeatExtends | coke/infra/redis.py:22-27 | In every reachable state a holder's heartbeat gives it its whole time to live again and changes no other key |
| ConversationLock.AcquiredIffFree | coke/infra/redis.py:38-39 | In every reachable state a key is acquired exactly if it is absent or expired |
| ReplyDelivery.RecipientAccountIds | coke/turn/runner.py:3055-3066 | At least one recipient, none twice, and only the trigger's own account unless it is a notification |
| ReplyDelivery.FirstOccurrences | coke/turn/runner.py:3065-3065 | Keeps each element once and loses none |
| ReplyDelivery.FirstOccurrencesInOrder | coke/turn/runner.py:3065-3065 | Keeps the order of first occurrence |
| ReplyDelivery.RecipientsAreNamed | coke/turn/runner.py:3056-3066 | A notification goes to exactly the accounts it names, or to the trigger's own if it names none |
| ReplyDelivery.MessageIdIsLeast | coke/turn/runner.py:3069-3075 | A request carries the least id recorded for its segment, and none exactly if there is none |
| ReplyDelivery.BuildReplyDeliveryRequests | coke/turn/runner.py:2008-2056 | The nested loops build the requests recipient by recipient, segment by segment |
| ReplyDelivery.IdempotencyKeysDistinct | coke/turn/runner.py:2031-2033 | No two requests of a turn share an idempotency key, whatever the recipient list |
| DeliveredRequests.RequestsAre | coke/turn/runner.py:2008-2056 | The request at each place of the batch: its recipient, segment, key text and the message id of its own number; as many as recipients times segments |
| DeliveredRequests.KeysOfTurnsDiffer | coke/turn/runner.py:2031-2033 | Keys of different turns differ if turn ids have no colon |
| DeliveredRequests.ColonsCollide | coke/turn/runner.py:2031-2033 | With colons they need not: two turns, one key |
| DeliveredRequests.DecimalIsShortest | coke/turn/runner.py:2031-2031 | The number in a key is written without leading zeros and reads back |
| DeliveredRequests.RecipientsInOrder | coke/turn/runner.py:3055-3066 | Recipients stand where they were first named |
| DeliveredRequests.NoListMeansOwn | coke/turn/runner.py:3055-3066 | Without a list, or for another kind of turn, the one recipient is the trigger's account |
| DeliveredRequests.NamesKept | coke/turn/runner.py:3059-3063 | Named accounts are read one by one, in order |
| DeliveredRequests.JoinedByLines | coke/turn/runner.py:2004-2006 | Segments sent as one message are separated by line feeds |
| ReplyDelivery.SplitIsBatchIff | coke/turn/runner.py:1904-1913 | A first part and then the rest are the batch exactly if there is one recipient or nothing is split |
| StreamedDelivery.StreamIsBatch | coke/turn/runner.py:364-380 | For one recipient, segment by segment is one commit followed by the batch |
| StreamedDelivery.StreamIsBatchIff | coke/turn/runner.py:364-380 | Streaming gives the batch's requests exactly if there is one recipient or at most one segment |
| StreamedDelivery.StreamThenRestIsBatch | coke/turn/runner.py:1900-1914 | An inbound turn that streamed k segments and then finishes from the validated output has sent exactly the batch |
| StreamedDelivery.SystemTurnSendsOneEach | coke/turn/runner.py:1993-2006 | A system turn sends one joined message to each recipient |
| StreamedDelivery.TurnPipelineRunnerDelivery.Deliver | coke/turn/runner.py:364-380 | Commits once when rows are recorded, then sends the segment's requests |
| DeliveredRequests.DeliverLeaves | coke/turn/runner.py:364-392 | In terms of the stored rows: a port that has not committed commits first exactly if the store answered with a row of index above zero; then each recipient is sent the segment with the least stored id of its number, or none if there is none |
| DeliveredRequests.CommitsIffRecorded | coke/turn/runner.py:364-380 | Over all segments of a turn and whatever the store answers each time: it commits at all exactly if some answer had such a row, and before anything is sent exactly if the first did |
| DeliveredRequests.RowsKept | coke/turn/runner.py:382-392 | Rows of index above zero are kept one by one, in order |
| DeliveredRequests.KeptRows | coke/turn/runner.py:382-392 | Exactly these rows are kept |
| DeliveredRequests.CarriesLeastId | coke/turn/runner.py:3069-3075 | A segment's message id is the least stored one of its number |
| DeliveredRequests.PortIsTask | coke/turn/runner.py:364-380 | For one recipient the port is the Deliver action of the turn's task: recorded means that the store holds such a row |
| StreamedDelivery.TurnRunner.RecordValidatedOutput | coke/turn/runner.py:1886-1919 | Commits and then sends what was not skipped |
| WaitingDelivery.RetriesBetweenSuccessesBounded | coke/turn/runner.py:146-162 | Over any dispatches, at every moment, fewer than the threshold of retries followed failures on a route since it last worked |
| WaitingDelivery.BoundIsReached | coke/turn/runner.py:151-152 | The bound is reached, one below the threshold |
| WaitingDelivery.CountIsFailuresSince | coke/turn/runner.py:154-162 | The breaker counts exactly the transient failures since the route last worked |
| WaitingDelivery.SecondRequestIff | coke/turn/runner.py:165-271 | After any dispatches a dispatch sends a second request exactly if its first failed for now, the turn is not over, and fewer than the threshold of failures have followed the route's last success |
| WaitingDelivery.SendWaitingDelivery | coke/turn/runner.py:165-271 | One request, and a second exactly if the first failed for now, the turn is not over, and the breaker, if there is one, allows its route |
| WaitingDelivery.WaitingDeliveryCircuitBreaker.ObserveOutcome | coke/turn/runner.py:154-162 | A success forgets the route, a transient failure adds one, anything else changes nothing |
| DueFires.GroupsPartitionFires | coke/scheduler/__main__.py:162-183 | A reminder that is not proactive and has a next fire time has its fire in exactly one group, that of its owner and time |
| DueFires.GroupsHoldNothingElse | coke/scheduler/__main__.py:162-183 | A fire in a group is that of such a reminder, of the group's owner and due at its time |
| DueFires.GroupsInOrder | coke/scheduler/__main__.py:177-185 | Groups stand by owner, and for one owner by time |
| DueFires.FiresInOrder | coke/scheduler/__main__.py:162-176 | The fires of a group stand in the order of the reminders |
| DueFires.NoFireRepeated | coke/scheduler/__main__.py:162-176 | No group repeats a fire |
| DueFires.GroupsAreUnique | coke/scheduler/__main__.py:162-183 | The groups and their order are determined by the reminders |
| DueFires.DueFireGroups | coke/scheduler/__main__.py:162-183 | The loop and the sort give one group per key, strictly increasing, fires in the reminders' order |
| DueFires.EnqueueAddsEachOnce | coke/scheduler/__main__.py:104-130 | Queuing keeps old rows, adds every key, adds nothing else and no key twice |
| DueFires.RescanAddsNothing | coke/scheduler/__main__.py:104-139 | A later scan that finds no new event key adds nothing, in whatever order |
| DueFires.FireIsQueuedIff | coke/scheduler/__main__.py:104-120 | After a scan a fire of a group is in the row of its owner and time exactly if that key was not queued before or the old row already carried the fire |
| DueFires.LateFireIsInNoRow | coke/scheduler/__main__.py:111-112 | It happens: a reminder set for an owner and time already queued has its fire in no row |
| DueFires.Scheduler.AppendOutbox | coke/scheduler/__main__.py:104-130 | Adds the row unless its key is there, and returns the growth |
| DueFires.Scheduler.ScanAndEnqueueDueTurns | coke/scheduler/__main__.py:25-57 | Queues the groups with their fires, in order, and then the other events; the count returned is the growth of the outbox |

## Left out

- The RedisError fallback of the lock adapter (`coke/infra/redis.py:54-57`, `68-71`): it reads and then acts in two commands, outside the scripts' atomicity.
- ConversationLock.ValidityNeverOverlaps: one store and one clock; a failover that loses keys is not modelled.
- WaitingDelivery.RetriesBetweenSuccessesBounded: dispatches follow one another on a breaker, as the one loop that sends them does; interleaved dispatches sharing a breaker are not modelled.
- SupersededRetry.SupersededTurnIsRetried: reaches the restarted task, not what it answers; turn replay and the freshness guard (`coke/turn/runner.py:556-563`, `607-612`) are outside the model.
- DueFires.FireIsQueuedIff: of a row's payload only the key and the fire ids.
- ReplyRoundTrip.StreamingRoundTrip: members printed before "segments" have string values; numbers, nested objects and arrays there are not printed. The parser itself is modelled on arbitrary text.
- SupervisorTheorems.PublishedAtMostOnce: one completion's publish is one action that either happens or raises; a publish that reached the provider and then raised is published again.
- StreamedDelivery.TurnRunner.RecordValidatedOutput: the delivery part only; storing the reply, lifecycle records and the result are I/O around it. Delivery outcomes never change which requests are sent.
- ReplyDelivery.BuildReplyDeliveryRequests: of a request's fields only account, key, text and message id; the others are the same for every request of a turn.
- DueFires.DueFireGroups: the Python sort is an insertion into a list; which sort does not matter, since the groups are unique.
- WorkStreamObjects.StreamConsumer.HandleReceived: one stream and one list of messages, where the client library nests lists; reading new messages and reclaiming old ones both deliver such a list.
- Cleaning a webhook payload: a message that is not deliverable is `None`. Parsing of stored counters and times that are not numbers.
- Supervisor logging, session handling and the superseded mark after a rollback (`coke/worker/interactive_supervisor.py:255-307`).
- The domain services, the inbound pipeline beyond its order of storing and delivering, LLM calls, HTTP adapters, Flask routes, configuration and wiring.
- Output-protocol validators, recovery texts, alias normalisation and time-zone formatting: branch reading, easy members.
