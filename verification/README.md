# Verified model of the conversation scoring pipeline

The program scores customer-support conversations with a language model. A conversation becomes a job
row in PostgreSQL (from the API, or from an object in a storage bucket), its id is sent through an
at-least-once queue, and any number of workers receive messages, claim the row with one conditional
UPDATE, call the model, write the outcome back and delete or postpone the message. This project models
that protocol and its neighbours in Dafny and proves what holds in every run, what holds only under a
named hypothesis, and what fails without it. `dafny verify dfyconfig.toml` checks everything.

| file | what it models |
|---|---|
| `Jobs.dfy` | the conversations table: guards, row changes, the repository functions in place |
| `RetryPolicy.dfy` | backoff and the retry decision |
| `Protocol.dfy` | the job protocol as a state machine: runs of interleaved atomic steps over any number of jobs |
| `Accounting.dfy` | what holds in every run, with no hypothesis |
| `Lifecycle.dfy` | row shape, the single terminal transition and its author, each with its exact condition |
| `Claims.dfy` | live claims: uniqueness, attempts beyond the cap, and ownership with its exact condition |
| `Messages.dfy` | messages deleted for terminal jobs only, with the exact condition; no lost job |
| `Witnesses.dfy` | concrete runs in which a property fails once its condition is broken |
| `WorkerProcess.dfy` | the worker's own code in place, errors included, and a single message redelivered until it is deleted |
| `FailureTokens.dfy` | injected failures and the exact fate of a job under them |
| `Ingestion.dfy`, `IngestionRace.dfy` | storage ingestion: one poll in place, and racing ingestors |
| `Transcript.dfy`, `TranscriptRoundTrip.dfy`, `TranscriptMeaning.dfy`, `Schemas.dfy` | the pasted-transcript parser, the transcript printer, what a text means without the parser's loop, the validity rule |
| `Pricing.dfy` | price lookup and exact cost |

## How the protocol is modelled

A run is a sequence of events: the clock advances, a job is created, or one job takes one step. A step
is one committed statement (publish, commit of the producer, claim, read of the row, write-back) or one
call to the queue or the model. Steps of all jobs and of all activations (one execution of
`Worker.process` each) interleave freely. A crash, or a step that raises, is an activation that takes no
further step, so every run also stands for the runs in which it crashes anywhere. Publishing may put any
positive number of copies in the queue; a message may be delivered again at any time, even after it was
deleted; a worker may hold several activations, which includes the worker that holds one at a time.
There is one monotone database clock. History counters record claims, takeovers (claims of a row already
in processing), releases, provider calls and terminal transitions; no step reads them.

A property names the hypotheses it needs, each a condition on the events of one job along the run:

- `TIMELY`: no activation writes back after its own claim expired. The visibility timeout is chosen for
  this (`backend/app/config.py:44-46`), but no statement enforces it: complete, release and fail look at
  the row's status only, never at who holds the claim.
- `NO_STALE_COMPLETION`: no success is written back to a row that is pending again. TIMELY implies it.
- `NO_EARLY_DELIVERY`: no delivery is claimed before the row is committed. Storage ingestion commits
  first, so this is only asked of jobs from the API.
- `NO_OVERWRITTEN_END`, `NO_OVERWRITTEN_WORK`, `NO_OVERWRITTEN_CLAIM`: `mark_enqueue_failed` meets no
  terminal row, no processing or completed row, no row held by a live claim. They are the guards that
  this statement lacks (`backend/app/repository.py:72-85`).
- `OWN_WRITES`: each write-back is the writer's own to make: its statement matches the row, and if a live
  claim holds the row it is the writer's. This is the test that complete, release and fail lack
  (`backend/app/repository.py:170`, `:206`, `:223-226`).
- `DEFINITE_SEND`: when publishing raises, nothing was enqueued. It implies the three guards.

What holds exactly when, for every run:

| property | holds exactly when | member |
|---|---|---|
| messages deleted only for terminal jobs, throughout | NO_STALE_COMPLETION and NO_EARLY_DELIVERY | `Messages.KeptIff` |
| at most one terminal transition | NO_OVERWRITTEN_END | `Lifecycle.OneTerminalTransitionIff` |
| row shape | NO_OVERWRITTEN_WORK | `Lifecycle.RowShapeIff` |
| every live claim owns its row and no write-back is refused, throughout | OWN_WRITES and NO_OVERWRITTEN_CLAIM | `Claims.ExclusiveIff` |
| attempts at most the cap plus takeovers, calls begun at most attempts, one retry per invalid response | always | `Accounting.dfy` |
| attempts at most the cap plus the activations whose claim ran out before they wrote | always | `Claims.AttemptsBoundedByRunOut` |

## Where code and documentation disagree

The model follows the code.

- `backend/app/worker.py:305` says that a refused completion means another worker finished the job. The
  row may instead be pending again, after a slow worker's late release; the message is then deleted and
  the job lost (`Witnesses.LateReleaseLosesJob`).
- `backend/app/worker.py:108` and `DECISIONS.md:106-112` give an invalid response one more chance. The
  code looks at the attempt number, so the chance exists only on the first attempt
  (`RetryPolicy.InvalidResponseRetriedOnlyFirst`, `RetryPolicy.InvalidAfterTransientGetsNoChance`).
- `backend/app/config.py:48` gives the backoff as base times 2 to the attempt; the code uses the attempt
  minus one.
- `DECISIONS.md:111` says an unknown job id ends failed; the code deletes the message and there is no row.
- `frontend/src/lib/transcript.ts:26` says consecutive lines of one speaker are joined. Only lines
  without a speaker name are joined to the message before them.
- The max_attempts column of a row is never consulted; a worker uses its own setting
  (`backend/app/worker.py:371`).

## Model

| member | source | states |
|---|---|---|
| Jobs.GuardedUpdatesKeepShape | backend/app/repository.py:63-237 | Every guarded UPDATE keeps the relation between status and nullable columns; the unguarded enqueue-failure keeps it if and only if the row was pending or failed |
| Jobs.TruncateMeans | backend/app/repository.py:420-424 | Error text up to 1000 characters is stored as it is; longer text is cut to 999 and an ellipsis |
| Jobs.ConversationTable.CreateJob | backend/app/repository.py:39-60 | Inserts one pending row with no attempts and leaves every other row alone |
| Jobs.ConversationTable.MarkEnqueued | backend/app/repository.py:63-69 | Sets the two timestamps of an existing row, whatever its status; a missing row is no error |
| Jobs.ConversationTable.MarkEnqueueFailed | backend/app/repository.py:72-85 | Fails an existing row whatever its status, without touching its claim or result columns |
| Jobs.ConversationTable.ClaimJob | backend/app/repository.py:110-147 | Claims a pending or processing row without a live claim; otherwise changes nothing and tells which of the three reasons applies |
| Jobs.ConversationTable.CompleteJob | backend/app/repository.py:150-193 | Takes effect if and only if the row exists and is processing; new row given column by column |
| Jobs.ConversationTable.ReleaseJobForRetry | backend/app/repository.py:196-216 | Takes effect if and only if the row exists and is processing; what it records is stated column by column in WorkerProcess.RetryLeaves |
| Jobs.ConversationTable.FailJob | backend/app/repository.py:219-237 | Takes effect if and only if the row exists and is not terminal |
| Jobs.ConversationTable.GetJob | backend/app/repository.py:245-252 | Returns the current row or nothing |
| RetryPolicy.FirstDelay | backend/app/worker.py:91 | At full jitter and up to the first attempt the delay is the base, within the maximum and at least a second |
| RetryPolicy.DelayDoubles | backend/app/worker.py:91 | At full jitter each next attempt's delay is twice this one's, within the maximum |
| RetryPolicy.BackoffWindow | backend/app/worker.py:83-92 | For every jitter the delay is linear in the jitter between half the longest delay (at least one second) and the longest delay, which never exceeds the maximum |
| RetryPolicy.BackoffMonotone | backend/app/worker.py:83-92 | With the same jitter a later attempt never waits less, for all attempt numbers |
| RetryPolicy.NextDelayNotShorter | backend/app/worker.py:83-92 | The next delay is at least this one for every pair of jitters if and only if twice the longest delay still fits under the maximum, or the maximum is one second |
| RetryPolicy.RetryOnlyBelowCap | backend/app/worker.py:95-122 | A retry happens only below the cap and never after a permanent error; the recorded type is the error's own, except that an exhausted transient error becomes max_attempts_exhausted |
| RetryPolicy.InvalidResponseRetriedOnlyFirst | backend/app/worker.py:116-118 | An invalid response is retried if and only if it is the first attempt and the cap is at least two |
| RetryPolicy.InvalidAfterTransientGetsNoChance | backend/app/worker.py:107-118 | A concrete case: the first invalid response of a job is not retried when it follows a transient error |
| Protocol.LastEvent | backend/app/worker.py:227-409 | Seen from one job a run grows by its creation, by one of its own enabled steps, or by nothing but time |
| Accounting.StepKeepsAccounts | backend/app/repository.py:118-237 | Every single step keeps the bookkeeping invariant: distinct claim numbers, observed attempt at least the own claim number, every claim, call and release accounted for |
| Accounting.RunIsAccounted | backend/app/worker.py:227-409 | The bookkeeping invariant holds in every run, with crashes, duplicates and stale writers |
| Accounting.ReleasesBelowCap | backend/app/worker.py:111-122 | Effective releases come from distinct claim numbers between 1 and max_attempts - 1, so there are at most max_attempts - 1 |
| Accounting.BoundedAttempts | backend/app/repository.py:118-134 | In every run attempt_count is at most max_attempts plus takeovers, and releases at most max_attempts - 1 |
| Accounting.CallsNeverExceedAttempts | backend/app/worker.py:260-280 | In every run attempt_count equals the number of successful claims, and the provider calls begun, returning or not, belong to distinct claims and never exceed it |
| Accounting.OneInvalidRetry | backend/app/worker.py:116-118 | In any interleaving at most one activation of a job retries an invalid response, and it made the first claim |
| Accounting.NoCallAfterFinish | backend/app/worker.py:243-252 | A terminal job stays terminal with the same attempt count, and no activation that had not claimed it by then ever claims it, begins a call or writes |
| Lifecycle.RunProducerOk | backend/app/ingestor.py:219-265 | In every run: a sent job has a message, an unsent one met no worker, and a finished producer leaves a visible row that is terminal or has been sent |
| Lifecycle.DefiniteSendNeverOverwrites | backend/app/repository.py:72-85 | If a raising publish enqueues nothing, an enqueue failure never meets a claimed, processing or terminal row |
| Lifecycle.StepAuthorship | backend/app/repository.py:110-237 | Every step that overwrites no terminal row keeps it that a terminal row has one author and stores what that author wrote |
| Lifecycle.RowShapeIff | backend/app/api/serializers.py:21-38 | In every run, a visible row keeps its shape if and only if no enqueue failure was recorded on a processing or completed row. Shape: claim expiry iff processing, start time iff attempted, completion time iff terminal, result iff completed, no error on a completed row and one on a failed row |
| Lifecycle.RowShapeAlways | backend/app/api/serializers.py:21-38 | Corollary: the shape holds in every reachable state when a raising publish enqueued nothing |
| Lifecycle.OneTerminalTransitionIff | backend/app/repository.py:72-237 | In every run, complete, fail and enqueue-failure take effect at most once on a job if and only if no enqueue failure was recorded on a terminal row; the exact number is given |
| Lifecycle.OneTerminalTransition | backend/app/repository.py:72-237 | Corollary: exactly one on a terminal job and none on any other when a raising publish enqueued nothing |
| Lifecycle.TerminalRowHasOneAuthor | backend/app/worker.py:265-409 | While no terminal row was overwritten, a terminal job has one author: the only activation whose write finished it, whose own score or error (classified by the retry policy) the row stores, or else the producer whose enqueuing failed |
| Lifecycle.UnsentJobFailedToEnqueue | backend/app/api/conversations.py:63-79 | In every run a terminal job with nothing ever sent failed to enqueue, and no worker met it |
| Lifecycle.PendingRowShowsRelease | backend/app/repository.py:204-216 | In every run a pending row that was attempted shows the error of an activation that released it: its own provider call's, with the error's own type, read below the cap |
| Lifecycle.TimesInOrder | backend/app/repository.py:63-237 | In every run no recorded time lies ahead of the clock, no job ends before it starts, unfinished rows have no completion time and no claim outlives the timeout |
| Lifecycle.OnlyEnqueuingTouchesEnded | backend/app/repository.py:63-85 | Of all steps that can follow a terminal state only the producer's mark_enqueued and mark_enqueue_failed change the row; no worker step does |
| Lifecycle.EndedRowFrozen | backend/app/repository.py:63-237 | Over any continuation that records no further enqueue failure on a terminal row, a terminal row keeps every column except the two enqueue timestamps, and these too once its producer is done |
| Lifecycle.StartTimeFixed | backend/app/repository.py:128 | Once set the start time never changes, in any run |
| Claims.StepHeld | backend/app/repository.py:117-134 | Every step keeps it that a row in processing has a holder: an activation between its claim and its write whose claim number and expiry the row shows |
| Claims.RunHeld | backend/app/repository.py:117-134 | That holds in every run, with no hypothesis |
| Claims.StepOneClaim | backend/app/repository.py:117-147 | Every timely step keeps it that live claims are unique and own the row unless the job has ended |
| Claims.RunOneClaim | backend/app/worker.py:260-309 | That invariant in every timely run, whatever the sends |
| Claims.AtMostOneLiveClaim | backend/app/repository.py:117-134 | Under TIMELY alone at most one activation of a job holds an unexpired claim; unless the job has ended the row carries its expiry and claim number, and it decides on its own attempt |
| Claims.RunTakeoversPaid | backend/app/repository.py:118-134 | In every run, takeovers so far plus the one that an expired claim leaves open are at most the activations whose claim ran out before they wrote |
| Claims.AttemptsBoundedByRunOut | backend/app/repository.py:118-134 | In every run attempt_count is at most the cap plus the activations whose claim ran out before they wrote; in a timely run these are activations that never wrote |
| Claims.StepExclusiveIff | backend/app/repository.py:72-237 | A step keeps ownership and refuses no write if and only if it is neither a write-back that is not the writer's own to make nor an enqueue failure recorded on a live claim |
| Claims.ExclusiveIff | backend/app/worker.py:260-409 | In every run, whatever the timing and the sends: throughout the run every live claim owns its row, every complete, release and fail returns true and the lost-claim outcome is unreached, if and only if every write-back was the writer's own to make and no enqueue failure was recorded on a live claim |
| Claims.TimelyWritesAreOwn | backend/app/config.py:44-46 | A timely write-back is the writer's own to make, when no enqueue failure was recorded on a live claim |
| Claims.ExclusiveIffWhenTimely | backend/app/worker.py:260-409 | Corollary: in a timely run the enqueue failure is the only condition left |
| Claims.NoWriteRefused | backend/app/worker.py:304-310 | Corollary under TIMELY and DEFINITE_SEND: no write-back is refused, LOST_CLAIM is unreachable and a live claim owns its row |
| Messages.DeleteIsSafeIff | backend/app/worker.py:304-409 | A write-back that decides to delete the message leaves a terminal row if and only if it is not a success written to a pending row |
| Messages.StepKeptIff | backend/app/worker.py:227-409 | A step keeps it that messages are deleted for terminal jobs only and nobody is told the job is unknown, if and only if it is neither a success written to a pending row nor a claim before the row is committed |
| Messages.KeptIff | backend/app/worker.py:227-409 | In every run, with no hypothesis on timing or sending: that holds throughout the run if and only if no stale completion and no early delivery ever happened |
| Messages.IngestedNeverEarly | backend/app/ingestor.py:219-250 | No delivery of a job from storage is ever claimed before its row is committed |
| Messages.TimelyNeverStale | backend/app/worker.py:284-311 | A timely run, whatever the sends, never writes a success back to a released row |
| Messages.NoLostJobUnlessStale | backend/app/worker.py:227-409 | If the row is committed before it is claimed and no success met a released row: the job is terminal, or not past a successful publish, or has every message it was ever sent |
| Messages.NoLostJob | backend/app/ingestor.py:219-265 | Under TIMELY no ingested job is lost, even if a publish raised after the message got out; messages are deleted only for terminal jobs, and no worker is told the job is unknown; for API jobs the same without early delivery |
| Messages.StaleCompletionLosesMessage | backend/app/worker.py:304-309 | Conversely, every stale completion deletes its message while the row is pending; if that was the last message of an enqueued job the job is lost |
| Messages.EarlyDeliveryLosesMessage | backend/app/api/conversations.py:55-81 | Every delivery claimed before the API's commit deletes its message as unknown and leaves a pending row; if it was the last message the job is lost |
| Witnesses.LateReleaseLosesJob | backend/app/worker.py:304-309 | A run from the start, definite sends and committed rows only, that loses a job through a late release |
| Witnesses.LateWriteCanBeOwn | backend/app/repository.py:168-193 | A run that is not timely in which the late success is still the writer's own to make and completes the job |
| Witnesses.EnqueueFailureOverwritesResult | backend/app/repository.py:72-85 | A timely run in which a send that raised was delivered: two terminal transitions, and a failed row with a result |
| Witnesses.EarlyDeliveryLosesApiJob | backend/app/api/conversations.py:55-81 | A timely run with definite sends that loses an API job |
| Witnesses.EnqueueFailureTakesClaimAway | backend/app/repository.py:72-85 | A timely run in which an enqueue failure is recorded while a worker holds a live claim, which then owns nothing |
| Witnesses.CrashesExceedAnyCap | backend/app/repository.py:118-134 | For every n a timely run with n takeovers and n + 1 attempts, so the takeover term of the bound is needed |
| WorkerProcess.JobQueue.Delete | backend/app/queue.py:172-178 | Removes exactly the acknowledged message, or reports the error of an unreachable queue and removes nothing |
| WorkerProcess.JobQueue.ChangeVisibility | backend/app/queue.py:180-193 | Sets one delay, or silently fails; never loses a message |
| WorkerProcess.Worker.Process | backend/app/worker.py:227-258 | The whole handling of one message: outcome or escaping error, new table, whether the message is deleted and how long it is hidden, for every body, row, reply, clock and point of error |
| WorkerProcess.Worker.Acknowledge | backend/app/queue.py:172-178 | The outcome stands if the delete succeeds; otherwise an error escapes and the message stays |
| WorkerProcess.Worker.ScoreAndPersist | backend/app/worker.py:265-328 | The part after the claim, with an error at the read, the provider, the write or the delete; the result is stored before the message is acknowledged |
| WorkerProcess.Worker.HandleFailure | backend/app/worker.py:352-409 | Releases and hides this message for the attempt's backoff, or fails and deletes it; an error of the transaction changes nothing, and no other receipt is touched |
| WorkerProcess.Worker.RunOnce | backend/app/worker.py:210-224 | One turn of the loop: idle when nothing is received, otherwise one message handled, with no other row or message touched |
| WorkerProcess.Worker.Drain | backend/app/worker.py:171-224 | The loop over any sequence of empty and non-empty receives of one message does what the redelivery function says, to this row only, and deletes this message only |
| WorkerProcess.ClaimLeaves | backend/app/repository.py:118-134 | What a worker that dies after claiming leaves: the claim's columns, and everything else as before |
| WorkerProcess.ScoreLeaves | backend/app/repository.py:168-193 | What a score leaves, every column given: exactly that score, no error, no claim, start time as claimed, end time of the write |
| WorkerProcess.RetryLeaves | backend/app/repository.py:204-216 | What an error worth retrying leaves: a pending row that shows the error's own type and truncated text, no claim, attempt and start time as claimed, all else as before |
| WorkerProcess.FailureLeaves | backend/app/repository.py:221-237 | What any other error leaves: a failed row that shows why, all else as before |
| WorkerProcess.RefusalLeaves | backend/app/worker.py:236-257 | A row that cannot be taken is left alone; its message is deleted if and only if the job is over |
| WorkerProcess.RetryHides | backend/app/worker.py:377-382 | Exactly a scheduled retry whose visibility call succeeds hides its message, for a time in the window of the attempt just counted; all of it at full jitter, half at none |
| WorkerProcess.SuccessiveRetriesHideLonger | backend/app/worker.py:377-382 | Of two successive retries the second hides the message at least as long as the first while the doubled window fits under the maximum |
| WorkerProcess.OneDelivery | backend/app/worker.py:227-409 | One delivery without errors to a claimable pending row counts one attempt and acknowledges if and only if the reply stops the job at that attempt |
| WorkerProcess.RedeliveryEndsAtFirstStop | backend/app/worker.py:95-122 | Redelivering one message ends at the first stopping reply with exactly its status, attempt count and error type |
| WorkerProcess.FirstStopExists | backend/app/worker.py:111-122 | Every reply script at least as long as the cap has a first stopping reply no later than the cap |
| WorkerProcess.RedeliveryTerminates | backend/app/worker.py:227-409 | Without errors a fresh job ends terminal, its message deleted, after at most max_attempts deliveries, whatever the replies and clocks |
| WorkerProcess.RedeliverySurvivesErrors | backend/app/worker.py:284-311 | With errors at any point, before or after each commit, and deliveries spaced beyond the claim: the message is deleted, with its job terminal, once max_attempts deliveries met no error |
| WorkerProcess.ProcessIsARun | backend/app/worker.py:227-409 | Any handling of a message, of an unknown job or wherever it raises, extends the run by protocol steps and waiting to the same row, outcome and queue, with the same provider calls |
| WorkerProcess.RedeliveryIsARun | backend/app/worker.py:171-258 | A whole redelivery is a run with the same final row, queue and number of provider calls, one activation per delivery |
| FailureTokens.AfterConsume | backend/app/demo.py:105-123 | Exactly one token is spent while any is armed |
| FailureTokens.TokenStore.Arm | backend/app/demo.py:73-88 | Replaces the count of one mode and of no other |
| FailureTokens.TokenStore.Clear | backend/app/demo.py:91-93 | Zeroes every mode and forgets no row |
| FailureTokens.TokenStore.Consume | backend/app/demo.py:105-123 | Spends one token of the first armed mode in order, or nothing when none is armed |
| FailureTokens.FaultInjectingProvider.NextFailure | backend/app/demo.py:153-174 | Consumes when the store can be reached; otherwise no token and no change |
| FailureTokens.FaultInjectingProvider.Score | backend/app/demo.py:176-206 | Raises the error of the consumed mode, with the validator's text for a malformed one, or passes the wrapped provider's reply through |
| FailureTokens.LeftAfter | backend/app/demo.py:105-123 | After any number of calls the modes are used up strictly in order |
| FailureTokens.CallReplyIs | backend/app/demo.py:176-206 | Which reply the k-th call gets, from the armed counts alone |
| FailureTokens.OneCallEach | backend/app/demo.py:153-180 | Without errors each delivery of a pending job calls the provider exactly once, so the job, the store and the deliveries move together |
| FailureTokens.StopsWhereTokensSay | backend/app/worker.py:111-122 | The first stopping reply of a tokened provider is where the closed form puts it |
| FailureTokens.JobFateUnderTokens | backend/app/worker.py:95-122 | With worker, wrapper and store composed and t, h and m tokens armed, a fresh job ends with the closed form's status, error type and attempt count, and the store is spent by exactly one call per attempt |
| FailureTokens.TokensLeftByJob | backend/app/demo.py:105-123 | Leftover tokens per mode after the job's own calls; without malformed tokens the job completes iff t + h is below the cap and uses min(t + h, cap) tokens |
| FailureTokens.FirstTokenShown | backend/app/demo.py:183-204 | After a first attempt that may be repeated a reader sees the error type and text of the first armed mode |
| Ingestion.CheckIsOnlyAnOptimisation | backend/app/ingestor.py:158-184 | Handling an object with and without the seen-check leaves the same records, jobs and publications |
| Ingestion.PollNeedsNoCheck | backend/app/ingestor.py:144-184 | The same for a whole poll |
| Ingestion.ValidObjectAdds | backend/app/ingestor.py:219-279 | A new valid object adds one ingested record, one publication and one job, its row given column by column for a publish that succeeds and one that raises |
| Ingestion.InvalidObjectAdds | backend/app/ingestor.py:203-214 | A new invalid object adds one record with its size and truncated reason, and nothing else |
| Ingestion.OtherObjectsAddNothing | backend/app/ingestor.py:161-175 | A seen or unreadable object adds nothing and is counted as duplicate or failed |
| Ingestion.Database.ObjectAlreadySeen | backend/app/repository.py:365-380 | True if and only if some record has this bucket, key and etag |
| Ingestion.Ingestor.HandleObject | backend/app/ingestor.py:158-184 | New tables, publications and outcome of handling one object |
| Ingestion.Ingestor.RecordInvalidObject | backend/app/ingestor.py:203-217 | Adds one invalid record unless the identity has one already |
| Ingestion.Ingestor.CreateJobFor | backend/app/ingestor.py:219-279 | Job and record together or neither; then publish, then mark enqueued or failed |
| Ingestion.Ingestor.PollOnce | backend/app/ingestor.py:144-156 | The poll loop with a stop request at any point |
| Ingestion.OneOutcomeEach | backend/app/ingestor.py:158-184 | Handling one object counts it under exactly one outcome |
| Ingestion.PollAccounting | backend/app/ingestor.py:54-71 | The four outcomes add up to the objects handled, at most those discovered, and to all of them without a stop |
| Ingestion.PollConservation | backend/app/ingestor.py:144-279 | Over any poll, stopped or not: publications equal new jobs, new records equal new jobs plus invalid objects, new jobs lie between ingested and ingested plus failed, and equal ingested when no publish raises |
| Ingestion.StoppedPollIsPrefix | backend/app/ingestor.py:151-154 | A poll that is stopped before some object leaves and counts exactly what a poll of the objects before it does |
| Ingestion.PollRecordsAll | backend/app/ingestor.py:144-184 | Without read failures and stops every listed object has a record afterwards |
| Ingestion.PollOfSeenIsIdle | backend/app/ingestor.py:161-164 | A poll of recorded objects changes nothing and counts all as duplicates |
| Ingestion.SecondPollIsIdle | backend/app/ingestor.py:144-184 | After a poll with no stop and no read failure a second poll of the same listing changes nothing, whatever it would read |
| IngestionRace.StepTidy | backend/app/ingestor.py:219-250 | Every step of any ingestor keeps the uniqueness invariant |
| IngestionRace.IngestedOnce | backend/app/models.py:184-189 | For any interleaving, with or without the seen-check: one record per bucket, key and etag, jobs in bijection with ingested records, each identity published at most once |
| IngestionRace.HandlingIsARun | backend/app/ingestor.py:158-184 | The sequential handling of an object is one of those interleavings, same tables and outcome |
| IngestionRace.HandlingIsAProducer | backend/app/ingestor.py:249-265 | The row an ingestor leaves is the one the job protocol's producer leaves |
| Transcript.ParseTranscript | frontend/src/lib/transcript.ts:29-68 | The line loop with its current message computes the parse function for every text; what that function means is stated by TranscriptMeaning.ParseMeans and the rows after it |
| TranscriptRoundTrip.DecomposedLineMatches | frontend/src/lib/transcript.ts:9 | Every way to read a line as the speaker pattern yields the captured role and text |
| TranscriptRoundTrip.MatchedLineDecomposes | frontend/src/lib/transcript.ts:9-18 | Every captured line can be read that way, so the match is exactly the pattern's |
| TranscriptRoundTrip.LinesOfJoin | backend/app/scoring/prompt.py:55-59 | Cutting a newline-joined list of lines gives the lines back |
| TranscriptRoundTrip.WellFormedParses | frontend/src/lib/transcript.ts:29-68 | Parsing the rendering of a well-formed conversation gives that conversation |
| TranscriptRoundTrip.ParseOutput | frontend/src/lib/transcript.ts:29-68 | Every parsed message is non-empty and trimmed, there is a customer message, and an error has no messages |
| TranscriptRoundTrip.ErrorIffEmpty | frontend/src/lib/transcript.ts:60-67 | A parse reports an error if and only if it returns no message |
| TranscriptRoundTrip.OnlyWellFormedSurvive | backend/app/scoring/prompt.py:49-59 | A conversation that comes back from printing and parsing was well formed |
| TranscriptRoundTrip.ParserUndoesPrinterIff | backend/app/scoring/prompt.py:49-59 | Parsing undoes printing if and only if each message is non-empty, trimmed and free of line terminators and some message is the customer's |
| TranscriptRoundTrip.ParseOneLineIff | frontend/src/lib/transcript.ts:33-56 | A successful parse gives messages without line terminators if and only if no continuation line has one |
| TranscriptRoundTrip.ReparseIsStable | frontend/src/lib/transcript.ts:29-68 | Printing and parsing a parsed text again changes nothing if and only if every line of the text names a speaker or has no line terminator inside its trimmed text; hence for every text whose only terminators are newlines |
| TranscriptRoundTrip.CarriageReturnBreaksReparse | frontend/src/lib/transcript.ts:44-53 | A concrete text with a carriage return inside a continuation line that parses and does not survive |
| TranscriptMeaning.ParseMeans | frontend/src/lib/transcript.ts:29-68 | If the first non-blank line names a speaker the result is the list of speeches: each a speaker line's text and the texts up to the next speaker line, joined by single spaces, empty ones left out; or the error for nothing said or no customer |
| TranscriptMeaning.NoSpeakerErrorIff | frontend/src/lib/transcript.ts:47-52 | The missing-speaker error is given if and only if the first non-blank line names no speaker |
| TranscriptMeaning.BlankTextNeedsMessage | frontend/src/lib/transcript.ts:60-62 | A text of white space only asks for a message |
| TranscriptMeaning.BlankLineInside | frontend/src/lib/transcript.ts:44-45 | Inserting or deleting a white-space-only line between two lines of any text changes nothing |
| TranscriptMeaning.BlankLineFirst | frontend/src/lib/transcript.ts:44-45 | Nor does one before the first line |
| TranscriptMeaning.BlankLineLast | frontend/src/lib/transcript.ts:44-45 | Nor does one after the last line |
| TranscriptMeaning.ClassifyMeans | frontend/src/lib/transcript.ts:33-45 | A line is a speaker's with its trimmed text, or all white space, or a continuation with its trimmed non-empty text |
| TranscriptMeaning.TrimMeans | frontend/src/lib/transcript.ts:44 | Trimming cuts white space only, and all of it at both ends |
| TranscriptMeaning.CodePoints | frontend/src/lib/transcript.ts:9 | White space and line terminators are the code points that ECMA-262 lists |
| TranscriptMeaning.SpeakerWords | frontend/src/lib/transcript.ts:9-18 | Each of the six words in any mix of cases, followed by a colon, names its own role and captures the text |
| TranscriptMeaning.LinesConcat | frontend/src/lib/transcript.ts:33 | The lines of two texts with a newline between them are the lines of the one and then of the other |
| TranscriptMeaning.JoinOfLines | frontend/src/lib/transcript.ts:33 | Joining the lines of a text gives the text back |
| TranscriptMeaning.RenderedOne | backend/app/scoring/prompt.py:55-59 | The printer labels a message with its role's own name in capitals |
| Schemas.ParsedIsAcceptedIff | backend/app/schemas.py:46-63 | A successful parse is accepted by the server if and only if it meets the three size limits |
| Schemas.ErrorIsNeverAccepted | backend/app/schemas.py:51 | No error result would be accepted |
| Schemas.EqualLengthsAcceptedIff | backend/app/schemas.py:19-63 | Customer messages of n characters each are accepted if and only if there are 1 to 50, n is 1 to 4000 and they have at most 8000 characters together |
| Schemas.TotalIsAdditive | backend/app/schemas.py:56 | The characters of two conversations add up |
| Schemas.AgentsAloneRejected | backend/app/schemas.py:61-62 | A conversation without a customer message is never accepted |
| Pricing.PriceFor | backend/app/scoring/pricing.py:41-48 | The early-return loop computes exact match, else first prefix in table order |
| Pricing.PricesArePrefixFree | backend/app/scoring/pricing.py:32-38 | No listed model name is a prefix of another |
| Pricing.OnePrefixAtMost | backend/app/scoring/pricing.py:45-47 | At most one listed name is a prefix of any model string |
| Pricing.ShortcutIsRedundant | backend/app/scoring/pricing.py:43-44 | With such a table the exact-match shortcut never changes the price |
| Pricing.LookupIgnoresOrder | backend/app/scoring/pricing.py:41-48 | The same entries in any order give the same price for every model string |
| Pricing.CostKnownIff | backend/app/scoring/pricing.py:51-61 | A cost is reported if and only if both token counts are known and some listed name starts the model string |
| Pricing.CostIs | backend/app/scoring/pricing.py:51-67 | The reported cost, in units of the eighth decimal, is prompt tokens times the listed input price plus completion tokens times the listed output price in cents |
| Pricing.ListPrices | backend/app/scoring/pricing.py:32-38 | What a million prompt tokens and a million completion tokens cost for each listed model and its snapshots |
| Pricing.CostIsWhole | backend/app/scoring/pricing.py:63-66 | Every cost is a whole number of units of the eighth decimal |
| Pricing.RoundingIsExact | backend/app/scoring/pricing.py:63-67 | Quantising to eight decimals changes no cost |
| Pricing.CostIsAdditive | backend/app/scoring/pricing.py:51-67 | Costs of two calls add up exactly to the cost of their tokens together |
| Pricing.CostFitsColumn | backend/app/models.py:104-108 | For token counts that fit their columns the cost is non-negative and fits twelve digits with eight decimals |

## Left out

- The SQS, S3, PostgreSQL and OpenAI clients: steps of the environment with the contracts above (atomic conditional updates, rollback on a unique violation, redelivery, delete, a visibility change that may fail silently).
- Database time and locking: transaction-start semantics of now() and waits for row locks; there is one monotone clock and steps are atomic.
- Floating point: jitter is a real number in [0, 1].
- Unbounded liveness: nothing says that a message is delivered again; termination is proved for a message that keeps being delivered.
- The dead-letter queue and its receive limit; a dead-lettered message counts as still undeleted.
- Workers with different settings: every worker in a run uses the same cap and timeouts.
- 32-bit width of attempt_count and of the queue's delay limits.
- Jobs.ConversationTable.CreateJob: the immutable columns that the insert writes (conversation, hash, source, reference, message count, max_attempts, createdAt) are not part of a row here, because no other statement touches them.
- WorkerProcess.Worker.Process: a commit that raises although it took effect is not a case of its own; it leaves the same table and queue as an error at the next call or, after a release, as a visibility change that fails.
- WorkerProcess.Worker.Drain: one message at a time; the pauses of run_forever after an error and its error counter are not modelled (time passes between deliveries anyway), nor are heartbeat and metrics.
- An API job whose request rolls back after publishing: modelled only as a producer that takes no further step.
- Database errors that escape a poll, the 1000-object listing cap, and the JSON parsing and 256 KiB limit of an object: the parse result is an input, with a non-empty problem text.
- Job ids are fresh where a lemma about a whole poll asks for it; a colliding id rolls back like any other conflict.
- FailureTokens.FaultInjectingProvider.Score: the simulated timeout's sleep is not modelled; time passes between the claim and the write-back anyway.
- The parser's error texts (they are an enumeration) and UTF-16: characters are Unicode scalar values.
- Labels other than the two roles in the printer, and missing message lists.
- classify_provider_error, the offline provider, content hashing and prompt wording: the error kinds are an abstract datatype.
- List filters, statistics, risk bands, React pages, metrics, logging, migrations, settings: they would only add easy members.
