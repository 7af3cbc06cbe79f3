/**
 One worker handling messages: Worker.process as it runs against the table and the queue, what a
 single message redelivered until it is deleted does to its job, and why that is one of the runs of
 the job protocol.
 */
module WorkerProcess {
  import opened Common
  import opened Jobs
  import opened RetryPolicy
  import opened Protocol
  import opened Accounting

  /** A message body holds a job id, or something that nobody here put there. */
  datatype QueueMessage = QueueMessage(receipt: nat, jobId: Option<JobId>)

  class JobQueue {
    var messages: set<nat>
    var delays: map<nat, nat>

    constructor (receipts: set<nat>)
      ensures messages == receipts && delays == map[]
    {
      messages := receipts;
      delays := map[];
    }

    /** False stands for the error that an unreachable queue raises. */
    method Delete(receipt: nat, reachable: bool) returns (deleted: bool)
      modifies this
      ensures deleted == reachable && delays == old(delays)
      ensures messages == if deleted then old(messages) - {receipt} else old(messages)
    {
      if reachable {
        messages := messages - {receipt};
      }
      return reachable;
    }

    /** The call may fail silently; the message is redelivered either way. */
    method ChangeVisibility(receipt: nat, seconds: nat, succeeds: bool)
      modifies this
      ensures messages == old(messages)
      ensures delays == if succeeds then old(delays)[receipt := seconds] else old(delays)
    {
      if succeeds {
        delays := delays[receipt := seconds];
      }
    }
  }

  /** The call during which an error escapes process, if any; its transaction is rolled back. */
  datatype Fault = NoFault | ClaimRaises | ReadRaises | ProviderRaises | WriteRaises | DeleteRaises

  /** What the surroundings contribute to one call of process: the clock, the provider, the jitter, the errors. */
  datatype Delivery = Delivery(
    claimAt: int,
    writeAt: int,
    reply: Reply,
    jitter: real,
    visibilityCall: bool,
    fault: Fault)

  predicate ValidDelivery(d: Delivery) {
    Jitter(d.jitter)
  }

  function OutcomeOf(plan: Plan, took: bool): ProcessOutcome {
    match plan
    case ToComplete(_) => if took then JobCompleted else LostClaim
    case ToRelease(_, _) => RetryScheduled
    case ToFail(_, _) => JobFailed
  }

  /** Whether this outcome comes with a delete of the message. */
  predicate Acks(o: ProcessOutcome) {
    !o.HeldElsewhere? && !o.RetryScheduled?
  }

  /** A call that returns, or that ends with an error when the delete it needs does. */
  function Finish(o: ProcessOutcome, d: Delivery): Option<ProcessOutcome> {
    if Acks(o) && d.fault.DeleteRaises? then None else Some(o)
  }

  /** The message is gone if the call returned with an outcome that deletes it. */
  predicate Deleted(result: Option<ProcessOutcome>) {
    result.Some? && Acks(result.value)
  }

  /** What one delivery does to the row, and what process returns; None is an escaping error. */
  function ProcessRow(c: Settings, row: Option<Row>, d: Delivery): (Option<Row>, Option<ProcessOutcome>) {
    if d.fault.ClaimRaises? then (row, None)
    else
      match ClaimVerdict(row, d.claimAt)
      case NotFound => (row, Finish(UnknownJob, d))
      case AlreadyFinished => (row, Finish(DuplicateSkipped, d))
      case HeldByAnotherWorker => (row, Finish(HeldElsewhere, d))
      case Claimed => ScoreRow(c, ClaimedRow(row.value, d.claimAt, c.visibilityTimeout), d)
  }

  /** The part after the claim. */
  function ScoreRow(c: Settings, claimed: Row, d: Delivery): (Option<Row>, Option<ProcessOutcome>) {
    if d.fault.ReadRaises? || d.fault.ProviderRaises? || d.fault.WriteRaises? then (Some(claimed), None)
    else
      var plan := PlanFor(c, claimed.attemptCount, d.reply);
      var (after, took) := Apply(plan, Some(claimed), d.writeAt);
      (after, Finish(OutcomeOf(plan, took), d))
  }

  /** How often one delivery calls the provider: once if it claims and reads the row, returning or not. */
  function CallsOf(row: Option<Row>, d: Delivery): nat {
    if d.fault.ClaimRaises? || d.fault.ReadRaises? || !ClaimVerdict(row, d.claimAt).Claimed? then 0 else 1
  }

  function Put(rows: map<JobId, Row>, id: JobId, row: Option<Row>): map<JobId, Row> {
    if row.Some? then rows[id := row.value] else rows
  }

  /** How long a delivery hides its message: for a scheduled retry whose visibility call succeeds. */
  function HiddenFor(c: Settings, row: Option<Row>, d: Delivery): (seconds: Option<nat>)
    requires ValidDelivery(d)
  {
    var (after, result) := ProcessRow(c, row, d);
    if result == Some(RetryScheduled) && d.visibilityCall && after.Some?
    then Some(Backoff(after.value.attemptCount, c.baseBackoff, c.maxBackoff, d.jitter))
    else None
  }

  function Hide(delays: map<nat, nat>, receipt: nat, seconds: Option<nat>): map<nat, nat> {
    if seconds.Some? then delays[receipt := seconds.value] else delays
  }

  /** What one receive brings: nothing, or the message once more. */
  datatype Poll = Empty | Got(delivery: Delivery)

  datatype Turn = Idle | Handled(result: Option<ProcessOutcome>)

  function Deliveries(polls: seq<Poll>): seq<Delivery> {
    if polls == [] then []
    else (if polls[0].Got? then [polls[0].delivery] else []) + Deliveries(polls[1..])
  }

  class Worker {
    const settings: Settings
    const table: ConversationTable
    const queue: JobQueue

    constructor (settings: Settings, table: ConversationTable, queue: JobQueue)
      ensures this.settings == settings && this.table == table && this.queue == queue
    {
      this.settings := settings;
      this.table := table;
      this.queue := queue;
    }

    /** The acknowledgement that ends most calls. */
    method Acknowledge(message: QueueMessage, o: ProcessOutcome, d: Delivery) returns (result: Option<ProcessOutcome>)
      requires Acks(o)
      modifies queue
      ensures result == Finish(o, d) && queue.delays == old(queue.delays)
      ensures queue.messages == if Deleted(result) then old(queue.messages) - {message.receipt} else old(queue.messages)
    {
      var deleted := queue.Delete(message.receipt, !d.fault.DeleteRaises?);
      return if deleted then Some(o) else None;
    }

    method Process(message: QueueMessage, d: Delivery) returns (result: Option<ProcessOutcome>)
      requires ValidDelivery(d)
      modifies table, queue
      ensures message.jobId.None? ==>
                && result == Finish(MalformedMessage, d)
                && table.rows == old(table.rows) && queue.delays == old(queue.delays)
      ensures message.jobId.Some? ==>
                var id := message.jobId.value;
                var (row, outcome) := ProcessRow(settings, old(table.Lookup(id)), d);
                && result == outcome && table.rows == Put(old(table.rows), id, row)
                && queue.delays ==
                   Hide(old(queue.delays), message.receipt, HiddenFor(settings, old(table.Lookup(id)), d))
      ensures queue.messages == if Deleted(result) then old(queue.messages) - {message.receipt} else old(queue.messages)
    {
      if message.jobId.None? {
        result := Acknowledge(message, MalformedMessage, d);
        return;
      }
      if d.fault.ClaimRaises? {
        return None;
      }
      var id := message.jobId.value;
      var claim := table.ClaimJob(id, d.claimAt, settings.visibilityTimeout);
      match claim
      case NotFound =>
        result := Acknowledge(message, UnknownJob, d);
      case AlreadyFinished =>
        result := Acknowledge(message, DuplicateSkipped, d);
      case HeldByAnotherWorker =>
        result := Some(HeldElsewhere);
      case Claimed =>
        result := ScoreAndPersist(id, message, d);
    }

    /** The part after a successful claim. */
    method ScoreAndPersist(id: JobId, message: QueueMessage, d: Delivery) returns (result: Option<ProcessOutcome>)
      requires ValidDelivery(d)
      modifies table, queue
      ensures id !in old(table.rows) ==>
                && result == (if d.fault.ReadRaises? then None else Finish(UnknownJob, d))
                && table.rows == old(table.rows) && queue.delays == old(queue.delays)
      ensures id in old(table.rows) ==>
                var r := old(table.rows)[id];
                var (row, outcome) := ScoreRow(settings, r, d);
                && result == outcome && table.rows == Put(old(table.rows), id, row)
                && queue.delays == if result == Some(RetryScheduled) && d.visibilityCall
                                   then old(queue.delays)[message.receipt :=
                                     Backoff(r.attemptCount, settings.baseBackoff, settings.maxBackoff, d.jitter)]
                                   else old(queue.delays)
      ensures queue.messages == if Deleted(result) then old(queue.messages) - {message.receipt} else old(queue.messages)
    {
      if d.fault.ReadRaises? {
        return None;
      }
      var job := table.GetJob(id);
      if job.None? {
        result := Acknowledge(message, UnknownJob, d);
        return;
      }
      var attempt := job.value.attemptCount;
      if d.fault.ProviderRaises? {
        return None;
      }
      if d.reply.Raised? {
        result := HandleFailure(id, message, d.reply.error, attempt, d);
        return;
      }
      if d.fault.WriteRaises? {
        return None;
      }
      var persisted := table.CompleteJob(id, d.writeAt, d.reply.outcome);
      result := Acknowledge(message, if persisted then JobCompleted else LostClaim, d);
    }

    method HandleFailure(id: JobId, message: QueueMessage, error: LlmError, attempt: nat, d: Delivery)
      returns (result: Option<ProcessOutcome>)
      requires ValidDelivery(d)
      modifies table, queue
      ensures d.fault.WriteRaises? ==> result.None? && table.rows == old(table.rows)
      ensures !d.fault.WriteRaises? ==>
                var plan := PlanFor(settings, attempt, Raised(error));
                var (row, took) := Apply(plan, old(table.Lookup(id)), d.writeAt);
                result == Finish(OutcomeOf(plan, took), d) && table.rows == Put(old(table.rows), id, row)
      ensures queue.messages == if Deleted(result) then old(queue.messages) - {message.receipt} else old(queue.messages)
      ensures queue.delays == if result == Some(RetryScheduled) && d.visibilityCall
                              then old(queue.delays)[message.receipt :=
                                Backoff(attempt, settings.baseBackoff, settings.maxBackoff, d.jitter)]
                              else old(queue.delays)
    {
      if d.fault.WriteRaises? {
        return None;
      }
      var decision := DecideRetry(error, attempt, settings, d.jitter);
      if decision.retry {
        var released := table.ReleaseJobForRetry(id, d.writeAt, decision.errorType, error.message);
        queue.ChangeVisibility(message.receipt, decision.backoff, d.visibilityCall);
        return Some(RetryScheduled);
      }
      var failed := table.FailJob(id, d.writeAt, decision.errorType, error.message);
      result := Acknowledge(message, JobFailed, d);
    }

    /** One turn of the loop: nothing was received, or one message was handled. */
    method RunOnce(message: QueueMessage, poll: Poll) returns (turn: Turn)
      requires message.jobId.Some? && (poll.Got? ==> ValidDelivery(poll.delivery))
      modifies table, queue
      ensures poll.Empty? ==> turn == Idle && table.rows == old(table.rows)
                              && queue.messages == old(queue.messages) && queue.delays == old(queue.delays)
      ensures poll.Got? ==>
                var id := message.jobId.value;
                var (row, result) := ProcessRow(settings, old(table.Lookup(id)), poll.delivery);
                && turn == Handled(result)
                && queue.delays == Hide(old(queue.delays), message.receipt,
                                        HiddenFor(settings, old(table.Lookup(id)), poll.delivery))
                && table.Lookup(id) == row && table.rows - {id} == old(table.rows) - {id}
                && queue.messages ==
                   if Deleted(result) then old(queue.messages) - {message.receipt} else old(queue.messages)
    {
      if poll.Empty? {
        return Idle;
      }
      var result := Process(message, poll.delivery);
      turn := Handled(result);
    }

    /** The worker loop while the queue holds one message, until it is deleted or the worker stops. */
    method Drain(message: QueueMessage, polls: seq<Poll>) returns (used: nat)
      requires message.jobId.Some? && message.receipt in queue.messages
      requires forall k | 0 <= k < |polls| && polls[k].Got? :: ValidDelivery(polls[k].delivery)
      modifies table, queue
      ensures var id := message.jobId.value;
              var (row, n, acked) := Redelivered(settings, old(table.Lookup(id)), Deliveries(polls));
              && used == n
              && table.Lookup(id) == row
              && table.rows - {id} == old(table.rows) - {id}
              && queue.delays - {message.receipt} == old(queue.delays) - {message.receipt}
              && queue.messages == if acked then old(queue.messages) - {message.receipt} else old(queue.messages)
    {
      used := 0;
      var id := message.jobId.value;
      ghost var first, all := table.Lookup(id), Deliveries(polls);
      var k := 0;
      assert polls[0..] == polls;
      while k < |polls| && message.receipt in queue.messages
        invariant k <= |polls|
        invariant table.rows - {id} == old(table.rows) - {id}
        invariant queue.delays - {message.receipt} == old(queue.delays) - {message.receipt}
        invariant queue.messages ==
                  if message.receipt in queue.messages then old(queue.messages)
                  else old(queue.messages) - {message.receipt}
        invariant DrainedTo(settings, first, all, used, table.Lookup(id), Deliveries(polls[k..]),
                            message.receipt in queue.messages)
      {
        FirstDelivery(polls[k..]);
        assert polls[k..][1..] == polls[k + 1..];
        if polls[k].Got? {
          DrainStep(settings, first, all, used, table.Lookup(id), Deliveries(polls[k..]));
        }
        var turn := RunOnce(message, polls[k]);
        if turn.Handled? {
          used := used + 1;
        }
        k := k + 1;
      }
    }
  }

  // ----- What one handling leaves behind ------------------------------------------------------------

  /** No live claim keeps a worker from taking this unfinished job at this time. */
  predicate Takeable(r: Row, at: int) {
    (r.status.Pending? || r.status.Processing?) && (r.lockedUntil == None || r.lockedUntil.value < at)
  }

  /** The provider's error is worth another attempt, when it comes at attempt n. */
  predicate WorthRetrying(e: LlmError, n: nat, cap: nat) {
    match e
    case Transient(_, _) => n < cap
    case InvalidResponse(_) => n == 1 && cap >= 2
    case Permanent(_) => false
  }

  /** A claim counts one attempt, holds the row for the timeout, and keeps everything else. */
  lemma ClaimLeaves(c: Settings, r: Row, d: Delivery)
    requires Takeable(r, d.claimAt)
    requires d.fault.ReadRaises? || d.fault.ProviderRaises? || d.fault.WriteRaises?
    ensures var start := if r.startedAt == None then Some(d.claimAt) else r.startedAt;
            ProcessRow(c, Some(r), d) ==
            (Some(r.(status := Processing, attemptCount := r.attemptCount + 1, startedAt := start,
                     lockedUntil := Some(d.claimAt + c.visibilityTimeout), updatedAt := d.claimAt)), None)
  {
  }

  /** A score: the row shows exactly that score and no error, and the message is deleted last. */
  lemma ScoreLeaves(c: Settings, r: Row, d: Delivery)
    requires Takeable(r, d.claimAt) && d.reply.Scored? && (d.fault.NoFault? || d.fault.DeleteRaises?)
    ensures var (start, o) := (if r.startedAt == None then Some(d.claimAt) else r.startedAt, d.reply.outcome);
            ProcessRow(c, Some(r), d) ==
            (Some(Row(Completed, r.attemptCount + 1, None, None, None,
                      Some(o.result.sentiment), Some(o.result.riskScore), Some(o.result.rationale), Some(o.execution),
                      r.enqueuedAt, start, Some(d.writeAt), d.writeAt)),
             if d.fault.NoFault? then Some(JobCompleted) else None)
  {
  }

  /**
   An error worth retrying: the row is pending again and shows the error, with its own type, and the
   claim is given up; attempt count and start time are as claimed, everything else as before.
   */
  lemma RetryLeaves(c: Settings, r: Row, d: Delivery)
    requires Takeable(r, d.claimAt) && d.reply.Raised? && (d.fault.NoFault? || d.fault.DeleteRaises?)
    requires WorthRetrying(d.reply.error, r.attemptCount + 1, c.maxAttempts)
    ensures var (row, result) := ProcessRow(c, Some(r), d);
            var start := if r.startedAt == None then Some(d.claimAt) else r.startedAt;
            var shown := if d.reply.error.Transient? then d.reply.error.errorType else InvalidLlmResponse;
            && result == Some(RetryScheduled) && row.Some?
            && ToError(row.value) == Some(JobError(shown, Some(Truncate(d.reply.error.message))))
            && row.value == r.(status := Pending, attemptCount := r.attemptCount + 1, startedAt := start,
                               lockedUntil := None, lastErrorType := row.value.lastErrorType,
                               lastError := row.value.lastError, updatedAt := d.writeAt)
  {
  }

  /** Any other error: the row has failed and shows why. */
  lemma FailureLeaves(c: Settings, r: Row, d: Delivery)
    requires Takeable(r, d.claimAt) && d.reply.Raised? && (d.fault.NoFault? || d.fault.DeleteRaises?)
    requires !WorthRetrying(d.reply.error, r.attemptCount + 1, c.maxAttempts)
    ensures var (row, result) := ProcessRow(c, Some(r), d);
            var start := if r.startedAt == None then Some(d.claimAt) else r.startedAt;
            var shown := match d.reply.error
                         case Transient(_, _) => MaxAttemptsExhausted
                         case InvalidResponse(_) => InvalidLlmResponse
                         case Permanent(_) => ClientError;
            && result == (if d.fault.NoFault? then Some(JobFailed) else None) && row.Some?
            && ToError(row.value) == Some(JobError(shown, Some(Truncate(d.reply.error.message))))
            && row.value == r.(status := Failed, attemptCount := r.attemptCount + 1, startedAt := start,
                               lockedUntil := None, lastErrorType := row.value.lastErrorType,
                               lastError := row.value.lastError, completedAt := Some(d.writeAt), updatedAt := d.writeAt)
  {
  }

  /** A row that cannot be taken is left alone; the message goes if and only if the job is over. */
  lemma RefusalLeaves(c: Settings, r: Row, d: Delivery)
    requires !Takeable(r, d.claimAt) || d.fault.ClaimRaises?
    ensures var (row, result) := ProcessRow(c, Some(r), d);
            && row == Some(r)
            && result == if d.fault.ClaimRaises? then None
                         else if r.status.Pending? || r.status.Processing? then Some(HeldElsewhere)
                         else if d.fault.DeleteRaises? then None else Some(DuplicateSkipped)
  {
  }

  // ----- How long a message is hidden -----------------------------------------------------------------

  /** The longest delay after attempt n, which FirstDelay and DelayDoubles fix. */
  function Longest(c: Settings, n: nat): nat {
    Backoff(n, c.baseBackoff, c.maxBackoff, 1.0)
  }

  predicate ValidBackoff(c: Settings) {
    c.baseBackoff >= 1 && c.maxBackoff >= 1
  }

  /**
   A retry that was scheduled hides its message for a time within the window of the attempt just
   counted, all of it at full jitter and half of it at none; nothing else hides a message.
   */
  lemma RetryHides(c: Settings, r: Row, d: Delivery)
    requires ValidBackoff(c) && ValidDelivery(d)
    ensures var hidden := HiddenFor(c, Some(r), d);
            var longest := Longest(c, r.attemptCount + 1);
            && (hidden.Some? <==> ProcessRow(c, Some(r), d).1 == Some(RetryScheduled) && d.visibilityCall)
            && (hidden.Some? ==>
                  && Max(1, longest / 2) <= hidden.value <= longest
                  && (d.jitter == 1.0 ==> hidden.value == longest)
                  && (d.jitter == 0.0 ==> hidden.value == Max(1, longest / 2)))
    ensures HiddenFor(c, None, d) == None
  {
    BackoffWindow(r.attemptCount + 1, c.baseBackoff, c.maxBackoff, d.jitter);
  }

  /** Over two successive retries the second delay is at least the first while the doubled window fits. */
  lemma SuccessiveRetriesHideLonger(c: Settings, r: Row, d: Delivery, e: Delivery)
    requires ValidBackoff(c) && ValidDelivery(d) && ValidDelivery(e)
    requires HiddenFor(c, Some(r), d).Some? && HiddenFor(c, ProcessRow(c, Some(r), d).0, e).Some?
    requires 2 * Longest(c, r.attemptCount + 1) <= c.maxBackoff
    ensures HiddenFor(c, Some(r), d).value <= HiddenFor(c, ProcessRow(c, Some(r), d).0, e).value
  {
    var row := ProcessRow(c, Some(r), d).0.value;
    RetryHides(c, r, d);
    RetryHides(c, row, e);
    DelayDoubles(r.attemptCount + 1, c.baseBackoff, c.maxBackoff);
  }

  // ----- One message, redelivered until it is deleted -----------------------------------------------

  /** Row, number of deliveries used, and whether the message was deleted. */
  function Redelivered(c: Settings, row: Option<Row>, ds: seq<Delivery>): (Option<Row>, nat, bool)
    decreases |ds|
  {
    if ds == [] then (row, 0, false)
    else
      var (after, outcome) := ProcessRow(c, row, ds[0]);
      if Deleted(outcome) then (after, 1, true)
      else
        var (last, n, acked) := Redelivered(c, after, ds[1..]);
        (last, n + 1, acked)
  }

  /** After `used` deliveries of all, with the message still there or not, and the rest to come. */
  ghost predicate DrainedTo(c: Settings, first: Option<Row>, all: seq<Delivery>, used: nat, now: Option<Row>,
                            rest: seq<Delivery>, present: bool)
  {
    var (row, n, acked) := Redelivered(c, first, all);
    if present then
      var (row', n', acked') := Redelivered(c, now, rest);
      row == row' && n == used + n' && acked == acked'
    else
      row == now && n == used && acked
  }

  lemma DrainStep(c: Settings, first: Option<Row>, all: seq<Delivery>, used: nat, now: Option<Row>, rest: seq<Delivery>)
    requires rest != [] && DrainedTo(c, first, all, used, now, rest, true)
    ensures var (after, result) := ProcessRow(c, now, rest[0]);
            DrainedTo(c, first, all, used + 1, after, rest[1..], !Deleted(result))
  {
  }

  lemma FirstDelivery(polls: seq<Poll>)
    requires polls != []
    ensures polls[0].Empty? ==> Deliveries(polls) == Deliveries(polls[1..])
    ensures polls[0].Got? ==> var ds := Deliveries(polls);
                              ds != [] && ds[0] == polls[0].delivery && ds[1..] == Deliveries(polls[1..])
  {
  }

  /** The provider calls of all these deliveries. */
  function CallsMade(c: Settings, row: Option<Row>, ds: seq<Delivery>): nat
    decreases |ds|
  {
    if ds == [] then 0
    else
      var (after, result) := ProcessRow(c, row, ds[0]);
      CallsOf(row, ds[0]) + if Deleted(result) then 0 else CallsMade(c, after, ds[1..])
  }

  /** A reply that ends the job when it comes at attempt k. */
  predicate Stops(c: Settings, k: nat, reply: Reply) {
    match reply
    case Scored(_) => true
    case Raised(Permanent(_)) => true
    case Raised(InvalidResponse(_)) => k >= Min(2, c.maxAttempts)
    case Raised(Transient(_, _)) => k >= c.maxAttempts
  }

  /** What a reader sees of a job in the end. */
  datatype Fate = Fate(status: Status, attemptCount: nat, errorType: Option<ErrorType>)

  function FateOf(r: Row): Fate {
    Fate(r.status, r.attemptCount, r.lastErrorType)
  }

  function FateAt(n: nat, reply: Reply): Fate {
    match reply
    case Scored(_) => Fate(Completed, n, None)
    case Raised(Permanent(_)) => Fate(Failed, n, Some(ClientError))
    case Raised(InvalidResponse(_)) => Fate(Failed, n, Some(InvalidLlmResponse))
    case Raised(Transient(_, _)) => Fate(Failed, n, Some(MaxAttemptsExhausted))
  }

  /** The k-th reply, coming at attempt from + k, ends the job. */
  predicate StopsAt(c: Settings, from: nat, ds: seq<Delivery>, k: nat) {
    1 <= k <= |ds| && Stops(c, from + k, ds[k - 1].reply)
  }

  ghost predicate FirstStop(c: Settings, from: nat, ds: seq<Delivery>, n: nat) {
    StopsAt(c, from, ds, n) && forall k | 1 <= k < n :: !StopsAt(c, from, ds, k)
  }

  /** No delivery meets an error other than those the provider reports. */
  predicate NoFaults(ds: seq<Delivery>) {
    forall k | 0 <= k < |ds| :: ds[k].fault.NoFault?
  }

  lemma OneDelivery(c: Settings, r: Row, d: Delivery)
    requires r.status.Pending? && r.lockedUntil.None? && d.fault.NoFault?
    ensures var (row, outcome) := ProcessRow(c, Some(r), d);
            && row.Some? && row.value.attemptCount == r.attemptCount + 1
            && row.value.lockedUntil.None?
            && (Deleted(outcome) <==> Stops(c, r.attemptCount + 1, d.reply))
            && (Deleted(outcome) ==> FateOf(row.value) == FateAt(r.attemptCount + 1, d.reply))
            && (!Deleted(outcome) ==> row.value.status.Pending?)
  {
  }

  /**
   The refinement: redelivering one message ends at the first reply that stops the job, with exactly
   the status, attempt count and error type that this reply and its position prescribe.
   */
  lemma {:induction false} RedeliveryEndsAtFirstStop(c: Settings, r: Row, ds: seq<Delivery>, n: nat)
    requires r.status.Pending? && r.lockedUntil.None? && FirstStop(c, r.attemptCount, ds, n) && NoFaults(ds)
    ensures var (row, used, acked) := Redelivered(c, Some(r), ds);
            acked && used == n && row.Some? && FateOf(row.value) == FateAt(r.attemptCount + n, ds[n - 1].reply)
    decreases n
  {
    OneDelivery(c, r, ds[0]);
    if n > 1 {
      assert !StopsAt(c, r.attemptCount, ds, 1);
      FirstStopTail(c, r.attemptCount, ds, n);
      RedeliveryEndsAtFirstStop(c, ProcessRow(c, Some(r), ds[0]).0.value, ds[1..], n - 1);
    }
  }

  lemma FirstStopTail(c: Settings, from: nat, ds: seq<Delivery>, n: nat)
    requires n > 1 && FirstStop(c, from, ds, n)
    ensures FirstStop(c, from + 1, ds[1..], n - 1)
  {
    var next, tail := from + 1, ds[1..];
    forall k | 1 <= k < n - 1
      ensures !StopsAt(c, next, tail, k)
    {
      assert !StopsAt(c, from, ds, k + 1);
    }
  }

  /** Every script at least as long as the cap has a first stopping reply, no later than the cap. */
  lemma {:induction false} FirstStopExists(c: Settings, ds: seq<Delivery>, k: nat) returns (n: nat)
    requires c.maxAttempts >= 1 && |ds| >= c.maxAttempts && k < c.maxAttempts
    requires forall i | 1 <= i <= k :: !StopsAt(c, 0, ds, i)
    ensures FirstStop(c, 0, ds, n) && n <= c.maxAttempts
    decreases c.maxAttempts - k
  {
    if StopsAt(c, 0, ds, k + 1) {
      n := k + 1;
    } else {
      n := FirstStopExists(c, ds, k + 1);
    }
  }

  /** A fresh job ends after at most max_attempts deliveries, whatever the provider replies. */
  lemma {:induction false} RedeliveryTerminates(c: Settings, r: Row, ds: seq<Delivery>)
    requires c.maxAttempts >= 1 && |ds| >= c.maxAttempts && NoFaults(ds)
    requires r.status.Pending? && r.lockedUntil.None? && r.attemptCount == 0
    ensures var (row, used, acked) := Redelivered(c, Some(r), ds);
            && acked && 1 <= used <= c.maxAttempts && FirstStop(c, 0, ds, used)
            && row.Some? && Terminal(row.value) && FateOf(row.value) == FateAt(used, ds[used - 1].reply)
  {
    var n := FirstStopExists(c, ds, 0);
    RedeliveryEndsAtFirstStop(c, r, ds, n);
  }

  // ----- Redelivery with errors -----------------------------------------------------------------------

  /** How many of the deliveries meet no error. */
  function Clean(ds: seq<Delivery>): nat {
    if ds == [] then 0 else (if ds[0].fault.NoFault? then 1 else 0) + Clean(ds[1..])
  }

  /** How many such deliveries a row needs at most: one to acknowledge, or what is left of the cap. */
  function Needed(c: Settings, r: Row): nat {
    if Terminal(r) then 1 else Max(1, c.maxAttempts - r.attemptCount)
  }

  /** Each delivery comes after a claim made by the one before it has expired. */
  predicate Spaced(c: Settings, ds: seq<Delivery>) {
    forall k | 0 <= k < |ds| - 1 :: ds[k].claimAt + c.visibilityTimeout < ds[k + 1].claimAt
  }

  /** No live claim hinders the first of the deliveries. */
  predicate FreeFor(r: Row, ds: seq<Delivery>) {
    Terminal(r) || r.lockedUntil.None? || ds == [] || r.lockedUntil.value < ds[0].claimAt
  }

  lemma AnyDelivery(c: Settings, r: Row, d: Delivery)
    requires Terminal(r) || r.lockedUntil.None? || r.lockedUntil.value < d.claimAt
    ensures var (row, result) := ProcessRow(c, Some(r), d);
            && row.Some?
            && (Deleted(result) ==> Terminal(row.value))
            && Needed(c, row.value) <= Needed(c, r)
            && (d.fault.NoFault? && !Deleted(result) ==> Needed(c, row.value) < Needed(c, r))
            && (Terminal(row.value) || row.value.lockedUntil.None? || row.value.lockedUntil == r.lockedUntil
                || row.value.lockedUntil.value == d.claimAt + c.visibilityTimeout)
  {
  }

  /**
   Whatever errors happen in between, before or after each commit: a message that is delivered again
   until it is deleted is deleted, with its job terminal, once max_attempts deliveries met no error.
   */
  lemma {:induction false} RedeliverySurvivesErrors(c: Settings, r: Row, ds: seq<Delivery>)
    requires Spaced(c, ds) && FreeFor(r, ds) && Clean(ds) >= Needed(c, r)
    ensures var (row, used, acked) := Redelivered(c, Some(r), ds);
            acked && used <= |ds| && row.Some? && Terminal(row.value)
    decreases |ds|
  {
    AnyDelivery(c, r, ds[0]);
    var (after, result) := ProcessRow(c, Some(r), ds[0]);
    if !Deleted(result) {
      assert forall k | 0 <= k < |ds[1..]| :: ds[1..][k] == ds[k + 1];
      assert |ds| > 1 ==> ds[0].claimAt + c.visibilityTimeout < ds[1].claimAt;
      RedeliverySurvivesErrors(c, after.value, ds[1..]);
    }
  }

  // ----- Handling a message is a run of the protocol --------------------------------------------------

  /** What one handling of message m, with errors or without, leaves of a job that was in state s. */
  predicate HandledOnce(c: Settings, s: JobState, t: JobState, m: nat, d: Delivery) {
    var (row, result) := ProcessRow(c, s.row, d);
    && t.row == row
    && t.sent == s.sent && t.producer == s.producer && t.source == s.source
    && |t.acts| == |s.acts| + 1 && t.acts[..|s.acts|] == s.acts
    && t.queue == (if Deleted(result) then s.queue - {m} else s.queue)
    && (result.Some? <==> t.acts[|s.acts|].phase.Done?)
    && (result.Some? ==> t.acts[|s.acts|].phase == Done(result.value))
    && t.log.calls == s.log.calls + CallsOf(s.row, d)
    && (Called(t.acts[|s.acts|]) <==> CallsOf(s.row, d) == 1)
  }

  /** Receiving the message and claiming its job, at the time of the claim. */
  lemma ClaimRun(c: Settings, run: seq<Event>, id: JobId, m: nat, d: Delivery) returns (longer: seq<Event>)
    requires Has(c, run, id) && m < JobAfter(c, run, id).sent && Now(c, run) <= d.claimAt
    ensures run <= longer && Has(c, longer, id) && Now(c, longer) == d.claimAt
    ensures var s := JobAfter(c, run, id);
            var received := Next(c, Now(c, run), s, Receive(m));
            JobAfter(c, longer, id) == ClaimStep(c, d.claimAt, received, |s.acts|)
  {
    var i := |JobAfter(c, run, id).acts|;
    longer := OneMore(c, run, id, Receive(m));
    longer := Wait(c, longer, id, d.claimAt);
    longer := OneMore(c, longer, id, Claim(i));
  }

  /** Deleting the message, unless that raises. */
  lemma AcknowledgeRun(c: Settings, run: seq<Event>, id: JobId, i: nat, o: ProcessOutcome, d: Delivery)
    returns (longer: seq<Event>)
    requires Has(c, run, id) && At(JobAfter(c, run, id), i, Acknowledging(o)) && Acks(o)
    ensures run <= longer && Has(c, longer, id) && Now(c, longer) == Now(c, run)
    ensures var s := JobAfter(c, run, id);
            JobAfter(c, longer, id) ==
            if Finish(o, d).None? then s
            else s.(acts := s.acts[i := s.acts[i].(phase := Done(o))], queue := s.queue - {s.acts[i].msg})
  {
    longer := run;
    if !d.fault.DeleteRaises? {
      longer := OneMore(c, run, id, Acknowledge(i));
    }
  }

  /** From a fresh claim on: reading the row and calling the provider, which may not return. */
  lemma CallRun(c: Settings, run: seq<Event>, id: JobId, i: nat, d: Delivery) returns (longer: seq<Event>)
    requires Has(c, run, id) && At(JobAfter(c, run, id), i, Reading) && JobAfter(c, run, id).row.Some?
    ensures run <= longer && Has(c, longer, id) && Now(c, longer) == Now(c, run)
    ensures var s := JobAfter(c, run, id);
            var called := s.acts[i].(phase := Calling, attempt := s.row.value.attemptCount);
            var returned := called.(phase := Writing, reply := Some(d.reply));
            JobAfter(c, longer, id) ==
            s.(acts := s.acts[i := if d.fault.ProviderRaises? then called else returned],
               log := s.log.(calls := s.log.calls + 1))
  {
    longer := OneMore(c, run, id, ReadJob(i));
    longer := OneMore(c, longer, id, BeginCall(i));
    if !d.fault.ProviderRaises? {
      longer := OneMore(c, longer, id, CallReturns(i, d.reply));
    }
  }

  /** Writing back at its time, then acknowledging or postponing. */
  lemma WriteRun(c: Settings, run: seq<Event>, id: JobId, i: nat, d: Delivery) returns (longer: seq<Event>)
    requires Has(c, run, id) && At(JobAfter(c, run, id), i, Writing) && JobAfter(c, run, id).row.Some?
    requires JobAfter(c, run, id).acts[i].reply.Some? && Now(c, run) <= d.writeAt
    ensures run <= longer && Has(c, longer, id) && Now(c, longer) == d.writeAt
    ensures var s, t := JobAfter(c, run, id), JobAfter(c, longer, id);
            var plan := PlanFor(c, s.acts[i].attempt, s.acts[i].reply.value);
            var (row, took) := Apply(plan, s.row, d.writeAt);
            var result := Finish(OutcomeOf(plan, took), d);
            && t.row == row
            && t.sent == s.sent && t.producer == s.producer && t.source == s.source && t.log.calls == s.log.calls
            && |t.acts| == |s.acts| && t.acts == s.acts[i := t.acts[i]] && t.acts[i].reply == s.acts[i].reply
            && t.queue == (if Deleted(result) then s.queue - {s.acts[i].msg} else s.queue)
            && (result.Some? <==> t.acts[i].phase.Done?)
            && (result.Some? ==> t.acts[i].phase == Done(result.value))
            && !t.acts[i].phase.Calling?
  {
    longer := Wait(c, run, id, d.writeAt);
    longer := OneMore(c, longer, id, WriteBack(i));
    var written := JobAfter(c, longer, id);
    if written.acts[i].phase.Extending? {
      longer := OneMore(c, longer, id, ExtendVisibility(i));
    } else {
      longer := AcknowledgeRun(c, longer, id, i, written.acts[i].phase.outcome, d);
    }
  }

  /** From a fresh claim to the end, or to the error. */
  lemma ScoreRun(c: Settings, run: seq<Event>, id: JobId, i: nat, d: Delivery) returns (longer: seq<Event>)
    requires Has(c, run, id) && At(JobAfter(c, run, id), i, Reading) && JobAfter(c, run, id).row.Some?
    requires JobAfter(c, run, id).acts[i].reply.None? && Now(c, run) <= d.writeAt
    ensures run <= longer && Has(c, longer, id) && Now(c, longer) <= d.writeAt
    ensures var s, t := JobAfter(c, run, id), JobAfter(c, longer, id);
            var (row, result) := ScoreRow(c, s.row.value, d);
            && t.row == row
            && t.sent == s.sent && t.producer == s.producer && t.source == s.source
            && |t.acts| == |s.acts| && t.acts == s.acts[i := t.acts[i]]
            && t.queue == (if Deleted(result) then s.queue - {s.acts[i].msg} else s.queue)
            && (result.Some? <==> t.acts[i].phase.Done?)
            && (result.Some? ==> t.acts[i].phase == Done(result.value))
            && t.log.calls == s.log.calls + (if d.fault.ReadRaises? then 0 else 1)
            && (Called(t.acts[i]) <==> !d.fault.ReadRaises?)
  {
    longer := run;
    if !d.fault.ReadRaises? {
      longer := CallRun(c, run, id, i, d);
      if !d.fault.ProviderRaises? && !d.fault.WriteRaises? {
        longer := WriteRun(c, longer, id, i, d);
      }
    }
  }

  /**
   Process refines the protocol: any handling of a message, wherever it raises, extends the run by
   steps that leave the same row, outcome and queue. It needs no visible row.
   */
  lemma ProcessIsARun(c: Settings, run: seq<Event>, id: JobId, m: nat, d: Delivery) returns (longer: seq<Event>)
    requires Has(c, run, id) && m < JobAfter(c, run, id).sent && Now(c, run) <= d.claimAt <= d.writeAt
    ensures run <= longer && Has(c, longer, id) && Now(c, longer) <= d.writeAt
    ensures HandledOnce(c, JobAfter(c, run, id), JobAfter(c, longer, id), m, d)
  {
    var s := JobAfter(c, run, id);
    var i := |s.acts|;
    if d.fault.ClaimRaises? {
      longer := OneMore(c, run, id, Receive(m));
    } else {
      longer := ClaimRun(c, run, id, m, d);
      var claimed := JobAfter(c, longer, id);
      assert claimed.acts[..i] == s.acts && claimed.acts[i].msg == m;
      if claimed.acts[i].phase.Reading? {
        longer := ScoreRun(c, longer, id, i, d);
      } else if claimed.acts[i].phase.Acknowledging? {
        longer := AcknowledgeRun(c, longer, id, i, claimed.acts[i].phase.outcome, d);
      }
    }
  }

  /** So a whole redelivery is a run as well, with the same calls, and everything proved of runs holds of it. */
  lemma {:induction false} RedeliveryIsARun(c: Settings, run: seq<Event>, id: JobId, m: nat, ds: seq<Delivery>)
    returns (longer: seq<Event>)
    requires Has(c, run, id) && m < JobAfter(c, run, id).sent
    requires forall k | 0 <= k < |ds| :: ds[k].claimAt <= ds[k].writeAt
    requires forall k | 0 <= k < |ds| - 1 :: ds[k].writeAt <= ds[k + 1].claimAt
    requires ds != [] ==> Now(c, run) <= ds[0].claimAt
    ensures run <= longer && Has(c, longer, id)
    ensures var s, t := JobAfter(c, run, id), JobAfter(c, longer, id);
            var (row, used, acked) := Redelivered(c, s.row, ds);
            && t.row == row
            && |t.acts| == |s.acts| + used
            && t.queue == (if acked then s.queue - {m} else s.queue)
            && t.log.calls == s.log.calls + CallsMade(c, s.row, ds)
    decreases |ds|
  {
    longer := run;
    if ds != [] {
      longer := ProcessIsARun(c, run, id, m, ds[0]);
      var (after, result) := ProcessRow(c, JobAfter(c, run, id).row, ds[0]);
      if !Deleted(result) {
        assert forall k | 0 <= k < |ds[1..]| :: ds[1..][k] == ds[k + 1];
        longer := RedeliveryIsARun(c, longer, id, m, ds[1..]);
      }
    }
  }
}
