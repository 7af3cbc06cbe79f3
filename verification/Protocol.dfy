/**
 The job protocol as a state machine: any number of jobs, each with its row, its producer, its
 messages and any number of worker activations, changed by interleaved atomic steps.

 Every step is one committed statement or one queue or provider call. An activation (one execution
 of Worker.process) or a producer that crashes, or whose step raises, simply takes no further step,
 so every run here is also a run with crashes at arbitrary points. A message may be delivered again
 at any time, even after it was deleted.
 */
module Protocol {
  import opened Common
  import opened Jobs
  import opened RetryPolicy

  // ----- State of one job -----------------------------------------------------------------------

  /** Storage ingestion commits the row before it publishes; the API publishes before it commits. */
  datatype Source = Api | S3

  datatype Producer = Unsent | Sent | SendRaised | Finished

  datatype Reply = Scored(outcome: ScoringOutcome) | Raised(error: LlmError)

  datatype ProcessOutcome =
    | JobCompleted
    | RetryScheduled
    | JobFailed
    | DuplicateSkipped
    | HeldElsewhere
    | UnknownJob
    | MalformedMessage
    | LostClaim

  /** Where an activation is; the name says which step it takes next. */
  datatype Phase =
    | Claiming
    | Reading
    | Ready
    | Calling
    | Writing
    | Acknowledging(outcome: ProcessOutcome)
    | Extending
    | Done(outcome: ProcessOutcome)

  /** What an activation wrote back, and whether the guarded update took effect. */
  datatype Write =
    | NotWritten
    | WroteResult(outcome: ScoringOutcome, took: bool)
    | WroteRelease(errorType: ErrorType, took: bool)
    | WroteFailure(errorType: ErrorType, took: bool)

  /**
   claimNumber is the attempt_count its own claim produced (0 before), attempt the one it read later;
   late says that it wrote back after its claim had expired.
   */
  datatype Activation = Activation(
    msg: nat,
    phase: Phase,
    claimNumber: nat,
    expiry: int,
    attempt: nat,
    reply: Option<Reply>,
    write: Write,
    late: bool)

  /** History counters: they are never read by a step. Calls are counted when they begin, returning or not. */
  datatype Log = Log(claims: nat, takeovers: nat, releases: nat, calls: nat, terminals: nat)

  datatype JobState = JobState(
    source: Source,
    producer: Producer,
    row: Option<Row>,
    queue: set<nat>,
    sent: nat,
    acts: seq<Activation>,
    log: Log)

  function NewJob(source: Source, now: int): JobState {
    JobState(source, Unsent, if source.S3? then Some(NewRow(now)) else None, {}, 0, [], Log(0, 0, 0, 0, 0))
  }

  // ----- Steps of one job -----------------------------------------------------------------------

  datatype JobEvent =
    | Publish(copies: nat)
    | PublishRaises(copies: nat)
    | CommitEnqueued
    | CommitEnqueueFailed(error: string)
    | Receive(msg: nat)
    | Claim(act: nat)
    | ReadJob(act: nat)
    | BeginCall(act: nat)
    | CallReturns(act: nat, reply: Reply)
    | WriteBack(act: nat)
    | Acknowledge(act: nat)
    | ExtendVisibility(act: nat)

  /** Between its claim and its write-back. */
  predicate Holding(a: Activation) {
    a.phase.Reading? || a.phase.Ready? || a.phase.Calling? || a.phase.Writing?
  }

  predicate At(s: JobState, act: nat, phase: Phase) {
    act < |s.acts| && s.acts[act].phase == phase
  }

  predicate Enabled(s: JobState, ev: JobEvent) {
    match ev
    case Publish(copies) => s.producer.Unsent? && copies >= 1
    case PublishRaises(_) => s.producer.Unsent?
    case CommitEnqueued => s.producer.Sent?
    case CommitEnqueueFailed(_) => s.producer.SendRaised?
    case Receive(m) => m < s.sent
    case Claim(i) => At(s, i, Claiming)
    case ReadJob(i) => At(s, i, Reading)
    case BeginCall(i) => At(s, i, Ready)
    case CallReturns(i, _) => At(s, i, Calling)
    case WriteBack(i) => At(s, i, Writing)
    case Acknowledge(i) => i < |s.acts| && s.acts[i].phase.Acknowledging?
    case ExtendVisibility(i) => At(s, i, Extending)
  }

  function MessageIds(first: nat, count: nat): (ids: set<nat>)
    ensures forall m :: m in ids <==> first <= m < first + count
  {
    if count == 0 then {} else MessageIds(first, count - 1) + {first + count - 1}
  }

  function SendCopies(s: JobState, copies: nat, producer: Producer): JobState {
    s.(producer := producer,
       queue := s.queue + MessageIds(s.sent, copies),
       sent := s.sent + copies)
  }

  /** The row as the producer's last transaction leaves it; the API's insert commits only here. */
  function Inserted(s: JobState, now: int): Row {
    if s.row.Some? then s.row.value else NewRow(now)
  }

  function ClaimStep(c: Settings, now: int, s: JobState, i: nat): JobState
    requires At(s, i, Claiming)
  {
    var a := s.acts[i];
    match ClaimVerdict(s.row, now)
    case NotFound => s.(acts := s.acts[i := a.(phase := Acknowledging(UnknownJob))])
    case AlreadyFinished => s.(acts := s.acts[i := a.(phase := Acknowledging(DuplicateSkipped))])
    case HeldByAnotherWorker => s.(acts := s.acts[i := a.(phase := Done(HeldElsewhere))])
    case Claimed =>
      var r := s.row.value;
      s.(row := Some(ClaimedRow(r, now, c.visibilityTimeout)),
         acts := s.acts[i := a.(phase := Reading, claimNumber := r.attemptCount + 1,
                                expiry := now + c.visibilityTimeout)],
         log := s.log.(claims := s.log.claims + 1,
                       takeovers := s.log.takeovers + if r.status.Processing? then 1 else 0))
  }

  function ReadStep(s: JobState, i: nat): JobState
    requires At(s, i, Reading)
  {
    var a := s.acts[i];
    if s.row.None? then s.(acts := s.acts[i := a.(phase := Acknowledging(UnknownJob))])
    else s.(acts := s.acts[i := a.(phase := Ready, attempt := s.row.value.attemptCount)])
  }

  /** What the worker is about to write back. The jitter only affects the delay, which is not used here. */
  datatype Plan =
    | ToComplete(outcome: ScoringOutcome)
    | ToRelease(errorType: ErrorType, message: string)
    | ToFail(errorType: ErrorType, message: string)

  function PlanFor(c: Settings, attempt: nat, reply: Reply): Plan {
    match reply
    case Scored(o) => ToComplete(o)
    case Raised(e) =>
      var d := DecideRetry(e, attempt, c, 0.0);
      if d.retry then ToRelease(d.errorType, e.message) else ToFail(d.errorType, e.message)
  }

  /** The guarded update that a plan stands for: its result, and whether it matched the row. */
  function Apply(plan: Plan, row: Option<Row>, now: int): (Option<Row>, bool) {
    if row.None? then (row, false)
    else
      var r := row.value;
      match plan
      case ToComplete(o) => if InProcessing(r) then (Some(CompletedRow(r, now, o)), true) else (row, false)
      case ToRelease(t, m) => if InProcessing(r) then (Some(ReleasedRow(r, now, t, m)), true) else (row, false)
      case ToFail(t, m) => if Failable(r) then (Some(FailedRow(r, now, t, m)), true) else (row, false)
  }

  function Written(plan: Plan, took: bool): Write {
    match plan
    case ToComplete(o) => WroteResult(o, took)
    case ToRelease(t, _) => WroteRelease(t, took)
    case ToFail(t, _) => WroteFailure(t, took)
  }

  /** Only complete_job's return value is looked at. */
  function AfterWrite(plan: Plan, took: bool): Phase {
    match plan
    case ToComplete(_) => Acknowledging(if took then JobCompleted else LostClaim)
    case ToRelease(_, _) => Extending
    case ToFail(_, _) => Acknowledging(JobFailed)
  }

  function WriteStep(c: Settings, now: int, s: JobState, i: nat): JobState
    requires At(s, i, Writing)
  {
    var a := s.acts[i];
    if a.reply.None? then s
    else
      var plan := PlanFor(c, a.attempt, a.reply.value);
      var (row, took) := Apply(plan, s.row, now);
      s.(row := row,
         acts := s.acts[i := a.(phase := AfterWrite(plan, took), write := Written(plan, took), late := a.expiry < now)],
         log := s.log.(releases := s.log.releases + (if took && plan.ToRelease? then 1 else 0),
                       terminals := s.log.terminals + (if took && !plan.ToRelease? then 1 else 0)))
  }

  function Next(c: Settings, now: int, s: JobState, ev: JobEvent): JobState
    requires Enabled(s, ev)
  {
    match ev
    case Publish(copies) => SendCopies(s, copies, Sent)
    case PublishRaises(copies) => SendCopies(s, copies, SendRaised)
    case CommitEnqueued => s.(producer := Finished, row := Some(EnqueuedRow(Inserted(s, now), now)))
    case CommitEnqueueFailed(error) =>
      s.(producer := Finished, row := Some(EnqueueFailedRow(Inserted(s, now), now, error)),
         log := s.log.(terminals := s.log.terminals + 1))
    case Receive(m) => s.(acts := s.acts + [Activation(m, Claiming, 0, 0, 0, None, NotWritten, false)])
    case Claim(i) => ClaimStep(c, now, s, i)
    case ReadJob(i) => ReadStep(s, i)
    case BeginCall(i) =>
      s.(acts := s.acts[i := s.acts[i].(phase := Calling)], log := s.log.(calls := s.log.calls + 1))
    case CallReturns(i, reply) => s.(acts := s.acts[i := s.acts[i].(phase := Writing, reply := Some(reply))])
    case WriteBack(i) => WriteStep(c, now, s, i)
    case Acknowledge(i) =>
      s.(acts := s.acts[i := s.acts[i].(phase := Done(s.acts[i].phase.outcome))],
         queue := s.queue - {s.acts[i].msg})
    case ExtendVisibility(i) => s.(acts := s.acts[i := s.acts[i].(phase := Done(RetryScheduled))])
  }

  // ----- The whole system and its runs ------------------------------------------------------------

  datatype System = System(now: int, jobs: map<JobId, JobState>)

  datatype Event = Tick(seconds: nat) | Create(id: JobId, source: Source) | Step(id: JobId, ev: JobEvent)

  predicate CanHappen(sys: System, e: Event) {
    match e
    case Tick(_) => true
    case Create(id, _) => id !in sys.jobs
    case Step(id, ev) => id in sys.jobs && Enabled(sys.jobs[id], ev)
  }

  function Happen(c: Settings, sys: System, e: Event): System
    requires CanHappen(sys, e)
  {
    match e
    case Tick(seconds) => sys.(now := sys.now + seconds)
    case Create(id, source) => sys.(jobs := sys.jobs[id := NewJob(source, sys.now)])
    case Step(id, ev) => sys.(jobs := sys.jobs[id := Next(c, sys.now, sys.jobs[id], ev)])
  }

  /** The state after a run from the empty system, or None when some event could not happen. */
  function Exec(c: Settings, run: seq<Event>): Option<System> {
    if run == [] then Some(System(0, map[]))
    else
      var before := Exec(c, run[..|run| - 1]);
      var e := run[|run| - 1];
      if before.Some? && CanHappen(before.value, e) then Some(Happen(c, before.value, e)) else None
  }

  predicate ValidRun(c: Settings, run: seq<Event>) {
    Exec(c, run).Some?
  }

  /** Job id exists after the run. */
  predicate Has(c: Settings, run: seq<Event>, id: JobId) {
    ValidRun(c, run) && id in Exec(c, run).value.jobs
  }

  function JobAfter(c: Settings, run: seq<Event>, id: JobId): JobState
    requires Has(c, run, id)
  {
    Exec(c, run).value.jobs[id]
  }

  function Now(c: Settings, run: seq<Event>): int
    requires ValidRun(c, run)
  {
    Exec(c, run).value.now
  }

  // ----- Named hypotheses about a run -------------------------------------------------------------

  /** What a hypothesis says about one event of a job, in the state in which it happens. */
  datatype Hypothesis =
    | TIMELY
    | DEFINITE_SEND
    | NO_EARLY_DELIVERY
    | NO_STALE_COMPLETION
    | NO_OVERWRITTEN_END
    | NO_OVERWRITTEN_WORK
    | NO_OVERWRITTEN_CLAIM
    | OWN_WRITES

  /** A success is written back to a row that some other activation released to pending. */
  predicate StaleCompletion(s: JobState, ev: JobEvent) {
    && ev.WriteBack?
    && At(s, ev.act, Writing)
    && s.acts[ev.act].reply.Some? && s.acts[ev.act].reply.value.Scored?
    && s.row.Some? && s.row.value.status.Pending?
  }

  /** The row is held by a claim that has not expired. */
  predicate ClaimedUntil(r: Row, now: int) {
    r.status.Processing? && r.lockedUntil.Some? && now <= r.lockedUntil.value
  }

  /** The WHERE clause of the statement that a plan stands for. */
  predicate Matches(plan: Plan, r: Row) {
    match plan
    case ToComplete(_) => InProcessing(r)
    case ToRelease(_, _) => InProcessing(r)
    case ToFail(_, _) => Failable(r)
  }

  /**
   The test that complete, release and fail lack: the statement matches the row, and if a live claim
   holds the row it is the writer's own.
   */
  predicate OwnWrite(c: Settings, now: int, r: Row, a: Activation) {
    && a.reply.Some? && Matches(PlanFor(c, a.attempt, a.reply.value), r)
    && (ClaimedUntil(r, now) ==> r.attemptCount == a.claimNumber)
  }

  predicate Respects(c: Settings, h: Hypothesis, now: int, s: JobState, ev: JobEvent) {
    match h
    // No activation writes back after its own claim expired.
    case TIMELY => ev.WriteBack? && At(s, ev.act, Writing) ==> now <= s.acts[ev.act].expiry
    // When publishing raises, nothing was enqueued.
    case DEFINITE_SEND => ev.PublishRaises? ==> ev.copies == 0
    // No delivery is claimed before the row is committed.
    case NO_EARLY_DELIVERY => ev.Claim? ==> s.row.Some?
    case NO_STALE_COMPLETION => !StaleCompletion(s, ev)
    // The three guards that mark_enqueue_failed does not have.
    case NO_OVERWRITTEN_END => ev.CommitEnqueueFailed? && s.row.Some? ==> !Terminal(s.row.value)
    case NO_OVERWRITTEN_WORK =>
      ev.CommitEnqueueFailed? && s.row.Some? ==> s.row.value.status.Pending? || s.row.value.status.Failed?
    case NO_OVERWRITTEN_CLAIM => ev.CommitEnqueueFailed? && s.row.Some? ==> !ClaimedUntil(s.row.value, now)
    // Each write-back is the writer's own to make.
    case OWN_WRITES =>
      ev.WriteBack? && At(s, ev.act, Writing) && s.row.Some? ==> OwnWrite(c, now, s.row.value, s.acts[ev.act])
  }

  predicate EventRespects(c: Settings, h: Hypothesis, sys: System, e: Event, id: JobId) {
    e.Step? && e.id == id && id in sys.jobs ==> Respects(c, h, sys.now, sys.jobs[id], e.ev)
  }

  /** Every event of job id in the run respects the hypothesis. Other jobs are not constrained. */
  predicate Along(h: Hypothesis, c: Settings, run: seq<Event>, id: JobId)
    requires ValidRun(c, run)
  {
    run == [] ||
    (Along(h, c, run[..|run| - 1], id) && EventRespects(c, h, Exec(c, run[..|run| - 1]).value, run[|run| - 1], id))
  }

  /**
   A run that ends in e, seen from one job: the job was just created, or e is one of its own enabled
   steps, or it did not change while the clock may have moved on.
   */
  lemma LastEvent(c: Settings, run: seq<Event>, id: JobId)
    requires run != [] && Has(c, run, id)
    ensures var front, e := run[..|run| - 1], run[|run| - 1];
            && ValidRun(c, front)
            && Now(c, front) <= Now(c, run)
            && if Has(c, front, id) then
                 if e.Step? && e.id == id then
                   && Now(c, run) == Now(c, front)
                   && Enabled(JobAfter(c, front, id), e.ev)
                   && JobAfter(c, run, id) == Next(c, Now(c, front), JobAfter(c, front, id), e.ev)
                 else
                   JobAfter(c, run, id) == JobAfter(c, front, id)
               else
                 e.Create? && e.id == id && JobAfter(c, run, id) == NewJob(e.source, Now(c, front))
  {
  }

  /** A job that does not exist has had no event that could break a hypothesis. */
  lemma {:induction false} AlongBeforeCreation(h: Hypothesis, c: Settings, run: seq<Event>, id: JobId)
    requires ValidRun(c, run) && !Has(c, run, id)
    ensures Along(h, c, run, id)
  {
    if run != [] {
      AlongBeforeCreation(h, c, run[..|run| - 1], id);
    }
  }

  /** One more step of a job makes a longer run. */
  lemma OneMore(c: Settings, run: seq<Event>, id: JobId, ev: JobEvent) returns (longer: seq<Event>)
    requires Has(c, run, id) && Enabled(JobAfter(c, run, id), ev)
    ensures longer == run + [Step(id, ev)] && Has(c, longer, id) && Now(c, longer) == Now(c, run)
    ensures JobAfter(c, longer, id) == Next(c, Now(c, run), JobAfter(c, run, id), ev)
  {
    longer := run + [Step(id, ev)];
    assert longer[..|longer| - 1] == run;
  }

  /** And so does waiting until a later time. */
  lemma Wait(c: Settings, run: seq<Event>, id: JobId, until: int) returns (longer: seq<Event>)
    requires Has(c, run, id) && Now(c, run) <= until
    ensures run <= longer && Has(c, longer, id) && Now(c, longer) == until
    ensures JobAfter(c, longer, id) == JobAfter(c, run, id)
  {
    longer := run + [Tick(until - Now(c, run))];
    assert longer[..|longer| - 1] == run;
  }
}
