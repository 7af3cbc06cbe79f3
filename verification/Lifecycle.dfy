/**
 The life of a row in every run, with no assumption about timing or sending: when its shape is kept,
 when it becomes terminal only once, and who is the author of what it stores. The only step that can
 spoil any of this is a recorded enqueue failure, because mark_enqueue_failed has no status guard; so
 each result holds exactly as long as that statement never meets a row which the missing guard would
 have refused.
 */
module Lifecycle {
  import opened Common
  import opened Jobs
  import opened RetryPolicy
  import opened Protocol
  import opened Accounting

  // ----- The producer's progress --------------------------------------------------------------------

  predicate FailedToEnqueue(s: JobState) {
    && s.producer.Finished? && s.row.Some?
    && s.row.value.status.Failed? && s.row.value.lastErrorType == Some(EnqueueFailed)
  }

  /** What the producer's progress says about the row and the messages. */
  predicate ProducerOk(s: JobState) {
    && (s.source.S3? || s.producer.Finished? ==> s.row.Some?)
    && (s.source.Api? && !s.producer.Finished? ==> s.row.None?)
    && (s.producer.Unsent? ==> s.sent == 0)
    && (s.producer.Sent? ==> s.sent >= 1)
    && (s.producer.Finished? ==> Ended(s) || s.sent >= 1)
    && (s.sent == 0 ==> s.acts == [])
    && (s.acts == [] && s.row.Some? ==>
          FailedToEnqueue(s) || (s.row.value.status.Pending? && s.row.value.attemptCount == 0))
  }

  lemma StepProducerOk(c: Settings, now: int, s: JobState, ev: JobEvent)
    requires ProducerOk(s) && Enabled(s, ev)
    ensures ProducerOk(Next(c, now, s, ev))
  {
  }

  lemma {:induction false} RunProducerOk(c: Settings, run: seq<Event>, id: JobId)
    requires Has(c, run, id)
    ensures ProducerOk(JobAfter(c, run, id))
  {
    if run != [] {
      var front, e := run[..|run| - 1], run[|run| - 1];
      LastEvent(c, run, id);
      if Has(c, front, id) {
        RunProducerOk(c, front, id);
        if e.Step? && e.id == id {
          StepProducerOk(c, Now(c, front), JobAfter(c, front, id), e.ev);
        }
      }
    }
  }

  /** Under DEFINITE_SEND nothing was sent by a producer whose publish raised. */
  lemma {:induction false} NothingSentWhenRaised(c: Settings, run: seq<Event>, id: JobId)
    requires Has(c, run, id) && Along(DEFINITE_SEND, c, run, id)
    ensures JobAfter(c, run, id).producer.SendRaised? ==> JobAfter(c, run, id).sent == 0
  {
    if run != [] {
      var front := run[..|run| - 1];
      LastEvent(c, run, id);
      if Has(c, front, id) {
        NothingSentWhenRaised(c, front, id);
        RunProducerOk(c, front, id);
      }
    }
  }

  /** So DEFINITE_SEND implies each of the guards that mark_enqueue_failed lacks. */
  lemma {:induction false} DefiniteSendNeverOverwrites(c: Settings, run: seq<Event>, id: JobId)
    requires ValidRun(c, run) && Along(DEFINITE_SEND, c, run, id)
    ensures Along(NO_OVERWRITTEN_END, c, run, id)
    ensures Along(NO_OVERWRITTEN_WORK, c, run, id)
    ensures Along(NO_OVERWRITTEN_CLAIM, c, run, id)
  {
    if run != [] {
      var front := run[..|run| - 1];
      DefiniteSendNeverOverwrites(c, front, id);
      if Has(c, front, id) {
        RunProducerOk(c, front, id);
        NothingSentWhenRaised(c, front, id);
      }
    }
  }

  // ----- One terminal transition --------------------------------------------------------------------

  /** Terminal transitions so far, when the failure did or did not overwrite a terminal row. */
  predicate Counted(s: JobState, overwritten: bool) {
    && s.log.terminals == (if Ended(s) then 1 else 0) + (if overwritten then 1 else 0)
    && (overwritten ==> Ended(s) && s.producer.Finished?)
  }

  lemma StepCounted(c: Settings, now: int, s: JobState, ev: JobEvent, overwritten: bool)
    requires Counted(s, overwritten) && Enabled(s, ev)
    ensures Counted(Next(c, now, s, ev), overwritten || !Respects(c, NO_OVERWRITTEN_END, now, s, ev))
  {
  }

  /**
   Of complete, fail and enqueue-failure, exactly one has taken effect on a terminal job and none on
   any other, plus one more if an enqueue failure overwrote a terminal row. So at most one ever takes
   effect if and only if that never happened.
   */
  lemma {:induction false} OneTerminalTransitionIff(c: Settings, run: seq<Event>, id: JobId)
    requires Has(c, run, id)
    ensures Counted(JobAfter(c, run, id), !Along(NO_OVERWRITTEN_END, c, run, id))
    ensures JobAfter(c, run, id).log.terminals <= 1 <==> Along(NO_OVERWRITTEN_END, c, run, id)
  {
    if run != [] {
      var front, e := run[..|run| - 1], run[|run| - 1];
      LastEvent(c, run, id);
      if Has(c, front, id) {
        OneTerminalTransitionIff(c, front, id);
        if e.Step? && e.id == id {
          StepCounted(c, Now(c, front), JobAfter(c, front, id), e.ev, !Along(NO_OVERWRITTEN_END, c, front, id));
        }
      } else {
        AlongBeforeCreation(NO_OVERWRITTEN_END, c, front, id);
      }
    }
  }

  /** In particular when a raising publish enqueued nothing. */
  lemma OneTerminalTransition(c: Settings, run: seq<Event>, id: JobId)
    requires Has(c, run, id) && Along(DEFINITE_SEND, c, run, id)
    ensures JobAfter(c, run, id).log.terminals == (if Ended(JobAfter(c, run, id)) then 1 else 0)
  {
    DefiniteSendNeverOverwrites(c, run, id);
    OneTerminalTransitionIff(c, run, id);
  }

  // ----- The shape of the row -----------------------------------------------------------------------

  /** The visible row has its shape, or an enqueue failure spoilt it for good. */
  predicate Shaped(s: JobState, overwritten: bool) {
    if overwritten then Ended(s) && s.producer.Finished? && !RowShape(s.row.value)
    else s.row.Some? ==> RowShape(s.row.value)
  }

  lemma StepShaped(c: Settings, now: int, s: JobState, ev: JobEvent, overwritten: bool)
    requires Shaped(s, overwritten) && Enabled(s, ev)
    ensures Shaped(Next(c, now, s, ev), overwritten || !Respects(c, NO_OVERWRITTEN_WORK, now, s, ev))
  {
  }

  lemma {:induction false} RunIsShaped(c: Settings, run: seq<Event>, id: JobId)
    requires Has(c, run, id)
    ensures Shaped(JobAfter(c, run, id), !Along(NO_OVERWRITTEN_WORK, c, run, id))
  {
    if run != [] {
      var front, e := run[..|run| - 1], run[|run| - 1];
      LastEvent(c, run, id);
      if Has(c, front, id) {
        RunIsShaped(c, front, id);
        if e.Step? && e.id == id {
          StepShaped(c, Now(c, front), JobAfter(c, front, id), e.ev, !Along(NO_OVERWRITTEN_WORK, c, front, id));
        }
      } else {
        AlongBeforeCreation(NO_OVERWRITTEN_WORK, c, front, id);
      }
    }
  }

  /**
   In every run a visible row has its shape if and only if no enqueue failure was ever recorded on a
   row that was being processed or was completed.
   */
  lemma RowShapeIff(c: Settings, run: seq<Event>, id: JobId)
    requires Has(c, run, id) && JobAfter(c, run, id).row.Some?
    ensures RowShape(JobAfter(c, run, id).row.value) <==> Along(NO_OVERWRITTEN_WORK, c, run, id)
  {
    RunIsShaped(c, run, id);
  }

  /** In particular when a raising publish enqueued nothing. */
  lemma RowShapeAlways(c: Settings, run: seq<Event>, id: JobId)
    requires Has(c, run, id) && Along(DEFINITE_SEND, c, run, id) && JobAfter(c, run, id).row.Some?
    ensures RowShape(JobAfter(c, run, id).row.value)
  {
    DefiniteSendNeverOverwrites(c, run, id);
    RowShapeIff(c, run, id);
  }

  // ----- Who wrote the terminal row -----------------------------------------------------------------

  /** This activation's write made the row terminal. */
  predicate Finisher(a: Activation) {
    (a.write.WroteResult? || a.write.WroteFailure?) && a.write.took
  }

  /** The stored columns are those of outcome o. */
  predicate Stores(r: Row, o: ScoringOutcome) {
    ToResult(r) == Some(o.result) && r.execution == Some(o.execution)
  }

  /** The row is as this activation's successful complete_job or fail_job left it. */
  predicate Authored(r: Row, a: Activation) {
    match a.write
    case WroteResult(o, _) => r.status.Completed? && Stores(r, o)
    case WroteFailure(t, _) =>
      && r.status.Failed? && r.lastErrorType == Some(t)
      && a.reply.Some? && a.reply.value.Raised? && r.lastError == Some(Truncate(a.reply.value.error.message))
    case _ => false
  }

  ghost predicate Authorship(s: JobState) {
    && (forall i | 0 <= i < |s.acts| && Finisher(s.acts[i]) :: Ended(s) && Authored(s.row.value, s.acts[i]))
    && (forall i, j | 0 <= i < |s.acts| && 0 <= j < |s.acts| && Finisher(s.acts[i]) && Finisher(s.acts[j]) :: i == j)
    && (Ended(s) ==> FailedToEnqueue(s) || exists i :: 0 <= i < |s.acts| && Finisher(s.acts[i]))
  }

  /** Steps of a producer or an activation that record no write and leave a terminal row's columns alone. */
  lemma QuietStepAuthorship(s: JobState, t: JobState)
    requires Authorship(s) && |s.acts| <= |t.acts|
    requires forall k | 0 <= k < |s.acts| :: t.acts[k].write == s.acts[k].write
    requires forall k | 0 <= k < |s.acts| && Finisher(s.acts[k]) :: t.acts[k].reply == s.acts[k].reply
    requires forall k | |s.acts| <= k < |t.acts| :: t.acts[k].write.NotWritten?
    requires if Ended(s) then t.row.Some? && SameButEnqueued(s.row.value, t.row.value) else !Ended(t)
    requires s.producer.Finished? ==> t.producer.Finished?
    ensures Authorship(t)
  {
    if Ended(s) && !FailedToEnqueue(s) {
      var k :| 0 <= k < |s.acts| && Finisher(s.acts[k]);
      assert Finisher(t.acts[k]);
    }
  }

  lemma WriteStepAuthorship(c: Settings, now: int, s: JobState, i: nat)
    requires Accounted(c, s) && Authorship(s) && At(s, i, Writing)
    ensures Authorship(WriteStep(c, now, s, i))
  {
    var t := WriteStep(c, now, s, i);
    assert ActivationOk(c, Attempts(s), s.acts[i]);
    assert forall k | 0 <= k < |s.acts| && k != i :: t.acts[k] == s.acts[k];
    if Finisher(t.acts[i]) {
      assert !Ended(s);
    } else if Ended(s) && !FailedToEnqueue(s) {
      var k :| 0 <= k < |s.acts| && Finisher(s.acts[k]);
      assert Finisher(t.acts[k]);
    }
  }

  lemma FailureAuthorship(c: Settings, now: int, s: JobState, error: string)
    requires Authorship(s) && s.producer.SendRaised? && !Ended(s)
    ensures Authorship(Next(c, now, s, CommitEnqueueFailed(error)))
  {
  }

  /** Of all steps that can follow a terminal state only the producer's last two touch the row. */
  lemma OnlyEnqueuingTouchesEnded(c: Settings, now: int, s: JobState, ev: JobEvent)
    requires Ended(s) && Enabled(s, ev)
    ensures Next(c, now, s, ev).row == match ev
            case CommitEnqueued => Some(EnqueuedRow(s.row.value, now))
            case CommitEnqueueFailed(error) => Some(EnqueueFailedRow(s.row.value, now, error))
            case _ => s.row
  {
  }

  lemma ClaimAuthorship(c: Settings, now: int, s: JobState, i: nat)
    requires Authorship(s) && At(s, i, Claiming)
    ensures Authorship(ClaimStep(c, now, s, i))
  {
    QuietStepAuthorship(s, ClaimStep(c, now, s, i));
  }

  lemma StepAuthorship(c: Settings, now: int, s: JobState, ev: JobEvent)
    requires Accounted(c, s) && Authorship(s) && Enabled(s, ev) && Respects(c, NO_OVERWRITTEN_END, now, s, ev)
    ensures Authorship(Next(c, now, s, ev))
  {
    if ev.WriteBack? {
      WriteStepAuthorship(c, now, s, ev.act);
    } else if ev.CommitEnqueueFailed? {
      FailureAuthorship(c, now, s, ev.error);
    } else if ev.Claim? {
      ClaimAuthorship(c, now, s, ev.act);
    } else {
      QuietStepAuthorship(s, Next(c, now, s, ev));
    }
  }

  lemma {:induction false} RunAuthorship(c: Settings, run: seq<Event>, id: JobId)
    requires Has(c, run, id) && Along(NO_OVERWRITTEN_END, c, run, id)
    ensures Authorship(JobAfter(c, run, id))
  {
    if run != [] {
      var front, e := run[..|run| - 1], run[|run| - 1];
      LastEvent(c, run, id);
      if Has(c, front, id) {
        RunAuthorship(c, front, id);
        RunIsAccounted(c, front, id);
        if e.Step? && e.id == id {
          StepAuthorship(c, Now(c, front), JobAfter(c, front, id), e.ev);
        }
      }
    }
  }

  /**
   As long as no terminal row was overwritten, a terminal job has exactly one author: the activation
   whose complete_job or fail_job took effect, or else the producer. A completed row holds the score
   of the author's own provider call; a failed row holds the author's error, classified as the retry
   policy does at the attempt it read; without such an author the row says that enqueuing failed.
   */
  lemma TerminalRowHasOneAuthor(c: Settings, run: seq<Event>, id: JobId) returns (author: Option<nat>)
    requires Has(c, run, id) && Along(NO_OVERWRITTEN_END, c, run, id) && Ended(JobAfter(c, run, id))
    ensures var s := JobAfter(c, run, id);
            && (forall k: nat | k < |s.acts| && Finisher(s.acts[k]) :: author == Some(k))
            && if author.None? then FailedToEnqueue(s)
               else
                 && author.value < |s.acts| && s.acts[author.value].reply.Some?
                 && match PlanFor(c, s.acts[author.value].attempt, s.acts[author.value].reply.value)
                    case ToComplete(o) => s.row.value.status.Completed? && Stores(s.row.value, o)
                    case ToFail(t, message) =>
                      s.row.value.status.Failed? && ToError(s.row.value) == Some(JobError(t, Some(Truncate(message))))
                    case ToRelease(_, _) => false
  {
    RunAuthorship(c, run, id);
    RunIsAccounted(c, run, id);
    var s := JobAfter(c, run, id);
    if k: nat :| k < |s.acts| && Finisher(s.acts[k]) {
      author := Some(k);
      assert ActivationOk(c, Attempts(s), s.acts[k]);
    } else {
      author := None;
    }
  }

  /** A terminal job for which nothing was ever sent failed to enqueue, and no worker met it. */
  lemma UnsentJobFailedToEnqueue(c: Settings, run: seq<Event>, id: JobId)
    requires Has(c, run, id) && Ended(JobAfter(c, run, id)) && JobAfter(c, run, id).sent == 0
    ensures FailedToEnqueue(JobAfter(c, run, id)) && JobAfter(c, run, id).acts == []
  {
    RunProducerOk(c, run, id);
  }

  // ----- Where the error of an unfinished row comes from --------------------------------------------

  /** The row shows the error that activation a released it with. */
  predicate ShowsRelease(r: Row, a: Activation) {
    && Released(a) && a.reply.Some? && a.reply.value.Raised?
    && match a.reply.value.error
       case Transient(t, message) => ToError(r) == Some(JobError(t, Some(Truncate(message))))
       case InvalidResponse(message) => ToError(r) == Some(JobError(InvalidLlmResponse, Some(Truncate(message))))
       case Permanent(_) => false
  }

  /** An unfinished row shows no error before its first release, and a releaser's afterwards. */
  ghost predicate ErrorsShown(s: JobState) {
    s.row.Some? && !Terminal(s.row.value) ==>
      || (ToError(s.row.value) == None && (s.row.value.status.Pending? ==> s.row.value.attemptCount == 0))
      || exists i :: 0 <= i < |s.acts| && ShowsRelease(s.row.value, s.acts[i])
  }

  lemma WriteErrorsShown(c: Settings, now: int, s: JobState, i: nat)
    requires Accounted(c, s) && ErrorsShown(s) && At(s, i, Writing)
    ensures ErrorsShown(WriteStep(c, now, s, i))
  {
    var t := WriteStep(c, now, s, i);
    assert ActivationOk(c, Attempts(s), s.acts[i]);
    if Released(t.acts[i]) {
      assert ShowsRelease(t.row.value, t.acts[i]);
    } else if t.row.Some? && !Terminal(t.row.value) && ToError(t.row.value) != None {
      var k :| 0 <= k < |s.acts| && ShowsRelease(s.row.value, s.acts[k]);
      assert ShowsRelease(t.row.value, t.acts[k]);
    }
  }

  /** Steps that keep what the row shows and every release that was made. */
  lemma QuietErrorsShown(s: JobState, t: JobState)
    requires ErrorsShown(s) && |s.acts| <= |t.acts|
    requires forall k | 0 <= k < |s.acts| && Released(s.acts[k]) ::
               Released(t.acts[k]) && t.acts[k].reply == s.acts[k].reply
    requires t.row.Some? && !Terminal(t.row.value) ==>
               if s.row.None? then ToError(t.row.value) == None && t.row.value.attemptCount == 0
               else !Terminal(s.row.value) && ToError(t.row.value) == ToError(s.row.value)
                    && (t.row.value.status.Pending? ==> s.row.value == t.row.value.(
                          enqueuedAt := s.row.value.enqueuedAt, updatedAt := s.row.value.updatedAt))
    ensures ErrorsShown(t)
  {
    if t.row.Some? && !Terminal(t.row.value) && ToError(t.row.value) != None {
      var k :| 0 <= k < |s.acts| && ShowsRelease(s.row.value, s.acts[k]);
      assert ShowsRelease(t.row.value, t.acts[k]);
    }
  }

  lemma StepErrorsShown(c: Settings, now: int, s: JobState, ev: JobEvent)
    requires Accounted(c, s) && ErrorsShown(s) && Enabled(s, ev)
    ensures ErrorsShown(Next(c, now, s, ev))
  {
    if ev.WriteBack? {
      WriteErrorsShown(c, now, s, ev.act);
    } else {
      if ev.CallReturns? {
        assert ActivationOk(c, Attempts(s), s.acts[ev.act]);
      }
      QuietErrorsShown(s, Next(c, now, s, ev));
    }
  }

  lemma {:induction false} RunErrorsShown(c: Settings, run: seq<Event>, id: JobId)
    requires Has(c, run, id)
    ensures ErrorsShown(JobAfter(c, run, id))
  {
    if run != [] {
      var front, e := run[..|run| - 1], run[|run| - 1];
      LastEvent(c, run, id);
      if Has(c, front, id) {
        RunErrorsShown(c, front, id);
        RunIsAccounted(c, front, id);
        if e.Step? && e.id == id {
          StepErrorsShown(c, Now(c, front), JobAfter(c, front, id), e.ev);
        }
      }
    }
  }

  /**
   In every run, a pending row that was attempted shows the error of an activation that released it:
   of its own provider call, with the error's own type, below the cap, and never a permanent one.
   */
  lemma PendingRowShowsRelease(c: Settings, run: seq<Event>, id: JobId) returns (author: nat)
    requires Has(c, run, id) && JobAfter(c, run, id).row.Some?
    requires JobAfter(c, run, id).row.value.status.Pending? && JobAfter(c, run, id).row.value.attemptCount >= 1
    ensures var s := JobAfter(c, run, id);
            && author < |s.acts| && ShowsRelease(s.row.value, s.acts[author])
            && 1 <= s.acts[author].claimNumber <= s.acts[author].attempt < c.maxAttempts
  {
    RunErrorsShown(c, run, id);
    RunIsAccounted(c, run, id);
    var s := JobAfter(c, run, id);
    author :| 0 <= author < |s.acts| && ShowsRelease(s.row.value, s.acts[author]);
    assert ActivationOk(c, Attempts(s), s.acts[author]);
  }

  // ----- The clock ----------------------------------------------------------------------------------

  predicate NotAfter(t: Option<int>, limit: int) {
    t.Some? ==> t.value <= limit
  }

  /** No recorded time lies ahead, a job does not end before it starts, and no claim outlives the timeout. */
  predicate InOrder(c: Settings, now: int, r: Row) {
    && r.updatedAt <= now
    && NotAfter(r.enqueuedAt, r.updatedAt) && NotAfter(r.startedAt, r.updatedAt) && NotAfter(r.completedAt, r.updatedAt)
    && (r.startedAt.Some? && r.completedAt.Some? ==> r.startedAt.value <= r.completedAt.value)
    && NotAfter(r.lockedUntil, r.updatedAt + c.visibilityTimeout)
  }

  /** While a row is unfinished it has no completion time. */
  predicate Timed(c: Settings, now: int, s: JobState) {
    s.row.Some? ==> InOrder(c, now, s.row.value) && (s.row.value.completedAt.Some? ==> Terminal(s.row.value))
  }

  lemma StepTimed(c: Settings, now: int, s: JobState, ev: JobEvent)
    requires Timed(c, now, s) && Enabled(s, ev)
    ensures Timed(c, now, Next(c, now, s, ev))
  {
  }

  /** In every run the recorded times are in order. */
  lemma {:induction false} TimesInOrder(c: Settings, run: seq<Event>, id: JobId)
    requires Has(c, run, id)
    ensures Timed(c, Now(c, run), JobAfter(c, run, id))
  {
    if run != [] {
      var front, e := run[..|run| - 1], run[|run| - 1];
      LastEvent(c, run, id);
      if Has(c, front, id) {
        TimesInOrder(c, front, id);
        if e.Step? && e.id == id {
          StepTimed(c, Now(c, front), JobAfter(c, front, id), e.ev);
        }
      }
    }
  }

  // ----- What never changes again -------------------------------------------------------------------

  /** The two rows agree except for the timestamps that mark_enqueued sets. */
  predicate SameButEnqueued(r: Row, q: Row) {
    q == r.(enqueuedAt := q.enqueuedAt, updatedAt := q.updatedAt)
  }

  /**
   After a terminal transition no step changes any column, except that a mark_enqueued still to come
   sets its two timestamps, as long as the continuation records no enqueue failure on the terminal
   row. If that happened before, nothing is left that could change the row.
   */
  lemma {:induction false} EndedRowFrozen(c: Settings, first: seq<Event>, run: seq<Event>, id: JobId)
    requires Continues(first, run) && Has(c, first, id) && ValidRun(c, run)
    requires Along(NO_OVERWRITTEN_END, c, first, id) ==> Along(NO_OVERWRITTEN_END, c, run, id)
    requires Ended(JobAfter(c, first, id))
    ensures Has(c, run, id) && Ended(JobAfter(c, run, id))
    ensures SameButEnqueued(JobAfter(c, first, id).row.value, JobAfter(c, run, id).row.value)
    ensures JobAfter(c, first, id).producer.Finished? ==>
              JobAfter(c, run, id).producer.Finished? && JobAfter(c, run, id).row == JobAfter(c, first, id).row
    decreases |run|
  {
    HasGrows(c, first, run, id);
    if |first| < |run| {
      var front, e := run[..|run| - 1], run[|run| - 1];
      LastEvent(c, run, id);
      OneTerminalTransitionIff(c, first, id);
      EndedRowFrozen(c, first, front, id);
      if e.Step? && e.id == id {
        OnlyEnqueuingTouchesEnded(c, Now(c, front), JobAfter(c, front, id), e.ev);
      }
    } else {
      assert first == run;
    }
  }

  /** Between two states of one job: the first start time, once set, is never set again. */
  lemma {:induction false} StartTimeFixed(c: Settings, first: seq<Event>, run: seq<Event>, id: JobId)
    requires Continues(first, run) && Has(c, first, id) && ValidRun(c, run)
    requires JobAfter(c, first, id).row.Some? && JobAfter(c, first, id).row.value.startedAt.Some?
    ensures Has(c, run, id) && JobAfter(c, run, id).row.Some?
    ensures JobAfter(c, run, id).row.value.startedAt == JobAfter(c, first, id).row.value.startedAt
    decreases |run|
  {
    HasGrows(c, first, run, id);
    if |first| < |run| {
      LastEvent(c, run, id);
      StartTimeFixed(c, first, run[..|run| - 1], id);
    } else {
      assert first == run;
    }
  }
}
