/**
 The conversations table: one row per scoring job, and the guarded UPDATE statements through which
 every other component changes a row.

 Each statement has a guard (its WHERE clause) and a row function (its SET clause). The class
 ConversationTable executes the statements in place; the job protocol reuses the same guards and row
 functions. Time is the database clock, a plain integer here.
 */
module Jobs {
  import opened Common

  type JobId = nat

  datatype Status = Pending | Processing | Completed | Failed

  datatype ErrorType =
    | Timeout
    | RateLimited
    | ServerError
    | ConnectionError
    | InvalidLlmResponse
    | ClientError
    | EnqueueFailed
    | MaxAttemptsExhausted
    | InternalError

  datatype Sentiment = Positive | Neutral | Negative

  /** The validated score itself. */
  datatype ScoringResult = ScoringResult(sentiment: Sentiment, riskScore: int, rationale: string)

  /** Execution metadata of a successful call. Token counts and cost may be unknown. */
  datatype Execution = Execution(
    model: string,
    promptVersion: string,
    schemaVersion: string,
    promptTokens: Option<int>,
    completionTokens: Option<int>,
    totalTokens: Option<int>,
    latencyMs: Option<int>,
    estimatedCost: Option<real>,
    pricingVersion: Option<string>)

  /** What the provider hands back on success. */
  datatype ScoringOutcome = ScoringOutcome(result: ScoringResult, execution: Execution)

  /** The mutable part of a conversations row. */
  datatype Row = Row(
    status: Status,
    attemptCount: nat,
    lockedUntil: Option<int>,
    lastErrorType: Option<ErrorType>,
    lastError: Option<string>,
    sentiment: Option<Sentiment>,
    riskScore: Option<int>,
    rationale: Option<string>,
    execution: Option<Execution>,
    enqueuedAt: Option<int>,
    startedAt: Option<int>,
    completedAt: Option<int>,
    updatedAt: int)

  const LAST_ERROR_MAX_CHARS := 1000

  function Truncate(text: string): string {
    if |text| <= LAST_ERROR_MAX_CHARS then text else text[..LAST_ERROR_MAX_CHARS - 1] + ['\U{2026}']
  }

  /** Stored error text has at most a thousand characters, and says so by its last one when it was cut. */
  lemma TruncateMeans(text: string)
    ensures |text| <= 1000 ==> Truncate(text) == text
    ensures |text| > 1000 ==> |Truncate(text)| == 1000 && Truncate(text)[..999] == text[..999]
                              && Truncate(text)[999] == '\U{2026}'
  {
  }

  predicate Terminal(r: Row) {
    r.status.Completed? || r.status.Failed?
  }

  // ----- Insert and the two producer updates ----------------------------------------------------

  /** The row that create_job inserts. */
  function NewRow(now: int): Row {
    Row(Pending, 0, None, None, None, None, None, None, None, None, None, None, now)
  }

  function EnqueuedRow(r: Row, now: int): Row {
    r.(enqueuedAt := Some(now), updatedAt := now)
  }

  /** Unlike the worker's updates this one has no status guard and leaves the claim columns alone. */
  function EnqueueFailedRow(r: Row, now: int, error: string): Row {
    r.(status := Failed, lastErrorType := Some(EnqueueFailed), lastError := Some(Truncate(error)),
       completedAt := Some(now), updatedAt := now)
  }

  // ----- The worker's conditional updates -------------------------------------------------------

  predicate Claimable(r: Row, now: int) {
    && (r.status.Pending? || r.status.Processing?)
    && (r.lockedUntil.None? || r.lockedUntil.value < now)
  }

  function ClaimedRow(r: Row, now: int, visibilityTimeout: nat): Row {
    r.(status := Processing,
       attemptCount := r.attemptCount + 1,
       startedAt := if r.startedAt.Some? then r.startedAt else Some(now),
       lockedUntil := Some(now + visibilityTimeout),
       updatedAt := now)
  }

  /** complete_job and release_job_for_retry look at the status only, never at who holds the claim. */
  predicate InProcessing(r: Row) {
    r.status.Processing?
  }

  function CompletedRow(r: Row, now: int, o: ScoringOutcome): Row {
    r.(status := Completed,
       sentiment := Some(o.result.sentiment),
       riskScore := Some(o.result.riskScore),
       rationale := Some(o.result.rationale),
       execution := Some(o.execution),
       lastErrorType := None,
       lastError := None,
       lockedUntil := None,
       completedAt := Some(now),
       updatedAt := now)
  }

  function ReleasedRow(r: Row, now: int, errorType: ErrorType, error: string): Row {
    r.(status := Pending,
       lastErrorType := Some(errorType),
       lastError := Some(Truncate(error)),
       lockedUntil := None,
       updatedAt := now)
  }

  predicate Failable(r: Row) {
    r.status.Pending? || r.status.Processing?
  }

  function FailedRow(r: Row, now: int, errorType: ErrorType, error: string): Row {
    r.(status := Failed,
       lastErrorType := Some(errorType),
       lastError := Some(Truncate(error)),
       lockedUntil := None,
       completedAt := Some(now),
       updatedAt := now)
  }

  datatype ClaimOutcome = Claimed | AlreadyFinished | HeldByAnotherWorker | NotFound

  /** Why a claim statement that updated nothing did so, or that it succeeded. */
  function ClaimVerdict(row: Option<Row>, now: int): ClaimOutcome {
    if row.None? then NotFound
    else if Claimable(row.value, now) then Claimed
    else if Terminal(row.value) then AlreadyFinished
    else HeldByAnotherWorker
  }

  // ----- What a reader of the row is shown ------------------------------------------------------

  datatype JobError = JobError(errorType: ErrorType, message: Option<string>)

  function ToResult(r: Row): Option<ScoringResult> {
    if r.sentiment.None? || r.riskScore.None? || r.rationale.None? then None
    else Some(ScoringResult(r.sentiment.value, r.riskScore.value, r.rationale.value))
  }

  function ToError(r: Row): Option<JobError> {
    if r.lastErrorType.None? then None else Some(JobError(r.lastErrorType.value, r.lastError))
  }

  /**
   The shape every row keeps: which nullable columns are set in which status, as a reader of the
   row would want to rely on.
   */
  predicate RowShape(r: Row) {
    && (r.lockedUntil.Some? <==> r.status.Processing?)
    && (r.startedAt.Some? <==> r.attemptCount >= 1)
    && (r.completedAt.Some? <==> Terminal(r))
    && (ToResult(r).Some? <==> r.status.Completed?)
    && (r.execution.Some? <==> r.status.Completed?)
    && (r.status.Completed? ==> ToError(r).None? && r.lastError.None?)
    && (r.status.Failed? ==> ToError(r).Some?)
    && (r.status.Processing? ==> r.attemptCount >= 1)
  }

  /** Every guarded statement keeps the shape, and so does marking a row enqueued. */
  lemma GuardedUpdatesKeepShape(r: Row, now: int, timeout: nat, o: ScoringOutcome, e: ErrorType, msg: string)
    requires RowShape(r)
    ensures Claimable(r, now) ==> RowShape(ClaimedRow(r, now, timeout))
    ensures InProcessing(r) ==> RowShape(CompletedRow(r, now, o)) && RowShape(ReleasedRow(r, now, e, msg))
    ensures Failable(r) ==> RowShape(FailedRow(r, now, e, msg))
    ensures RowShape(EnqueuedRow(r, now))
    // The unguarded statement keeps it exactly on pending and failed rows.
    ensures RowShape(EnqueueFailedRow(r, now, msg)) <==> r.status.Pending? || r.status.Failed?
  {
  }

  // ----- The table ------------------------------------------------------------------------------

  class ConversationTable {
    var rows: map<JobId, Row>

    constructor ()
      ensures rows == map[]
    {
      rows := map[];
    }

    function Lookup(id: JobId): Option<Row>
      reads this
    {
      if id in rows then Some(rows[id]) else None
    }

    method CreateJob(id: JobId, now: int)
      requires id !in rows
      modifies this
      ensures rows == old(rows)[id := NewRow(now)]
    {
      rows := rows[id := NewRow(now)];
    }

    method MarkEnqueued(id: JobId, now: int)
      modifies this
      ensures rows == if id in old(rows) then old(rows)[id := EnqueuedRow(old(rows)[id], now)] else old(rows)
    {
      if id in rows {
        rows := rows[id := rows[id].(enqueuedAt := Some(now), updatedAt := now)];
      }
    }

    method MarkEnqueueFailed(id: JobId, now: int, error: string)
      modifies this
      ensures rows ==
              if id in old(rows) then old(rows)[id := EnqueueFailedRow(old(rows)[id], now, error)] else old(rows)
    {
      if id in rows {
        rows := rows[id := EnqueueFailedRow(rows[id], now, error)];
      }
    }

    method ClaimJob(id: JobId, now: int, visibilityTimeout: nat) returns (outcome: ClaimOutcome)
      modifies this
      ensures outcome == ClaimVerdict(old(Lookup(id)), now)
      ensures outcome.Claimed? ==> rows == old(rows)[id := ClaimedRow(old(rows)[id], now, visibilityTimeout)]
      ensures !outcome.Claimed? ==> rows == old(rows)
    {
      if id in rows && Claimable(rows[id], now) {
        rows := rows[id := ClaimedRow(rows[id], now, visibilityTimeout)];
        return Claimed;
      }
      if id !in rows {
        return NotFound;
      }
      if rows[id].status.Completed? || rows[id].status.Failed? {
        return AlreadyFinished;
      }
      return HeldByAnotherWorker;
    }

    method CompleteJob(id: JobId, now: int, o: ScoringOutcome) returns (updated: bool)
      modifies this
      ensures updated <==> id in old(rows) && InProcessing(old(rows)[id])
      ensures rows == if updated then old(rows)[id := CompletedRow(old(rows)[id], now, o)] else old(rows)
    {
      updated := id in rows && rows[id].status.Processing?;
      if updated {
        rows := rows[id := CompletedRow(rows[id], now, o)];
      }
    }

    method ReleaseJobForRetry(id: JobId, now: int, errorType: ErrorType, error: string) returns (updated: bool)
      modifies this
      ensures updated <==> id in old(rows) && InProcessing(old(rows)[id])
      ensures rows == if updated then old(rows)[id := ReleasedRow(old(rows)[id], now, errorType, error)] else old(rows)
    {
      updated := id in rows && rows[id].status.Processing?;
      if updated {
        rows := rows[id := ReleasedRow(rows[id], now, errorType, error)];
      }
    }

    method FailJob(id: JobId, now: int, errorType: ErrorType, error: string) returns (updated: bool)
      modifies this
      ensures updated <==> id in old(rows) && Failable(old(rows)[id])
      ensures rows == if updated then old(rows)[id := FailedRow(old(rows)[id], now, errorType, error)] else old(rows)
    {
      updated := id in rows && (rows[id].status.Pending? || rows[id].status.Processing?);
      if updated {
        rows := rows[id := FailedRow(rows[id], now, errorType, error)];
      }
    }

    method GetJob(id: JobId) returns (row: Option<Row>)
      ensures row == Lookup(id)
    {
      row := if id in rows then Some(rows[id]) else None;
    }
  }
}
