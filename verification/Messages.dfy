/**
 Messages. A message is deleted for a terminal job only, in any timing, exactly as long as no success
 is written back to a released row and nothing is claimed before its row is committed; so no job is lost.
 */
module Messages {
  import opened Common
  import opened Jobs
  import opened RetryPolicy
  import opened Protocol
  import opened Accounting
  import opened Lifecycle
  import opened Claims

  // ----- No lost job --------------------------------------------------------------------------------

  /** The activation has decided to delete its message, or already did. */
  predicate Deletes(a: Activation) {
    a.phase.Acknowledging? || (a.phase.Done? && !a.phase.outcome.HeldElsewhere? && !a.phase.outcome.RetryScheduled?)
  }

  predicate Unknown(a: Activation) {
    a.phase == Acknowledging(UnknownJob) || a.phase == Done(UnknownJob)
  }

  /** Messages are deleted for terminal jobs only, and nobody was told that the job is unknown. */
  ghost predicate Kept(s: JobState) {
    && (forall i | 0 <= i < |s.acts| && Deletes(s.acts[i]) :: Ended(s))
    && (forall i | 0 <= i < |s.acts| :: !Unknown(s.acts[i]))
    && (forall m | 0 <= m < s.sent && m !in s.queue :: Ended(s))
  }

  /**
   The exact condition, in any state the protocol can reach: a write-back that decides to delete its
   message leaves a terminal row if and only if it is not a success written to a pending row.
   */
  lemma DeleteIsSafeIff(c: Settings, now: int, s: JobState, i: nat)
    requires Accounted(c, s) && At(s, i, Writing)
    requires Deletes(WriteStep(c, now, s, i).acts[i])
    ensures Ended(WriteStep(c, now, s, i)) <==> !StaleCompletion(s, WriteBack(i))
  {
    assert ActivationOk(c, Attempts(s), s.acts[i]);
  }

  lemma WriteKeptIff(c: Settings, now: int, s: JobState, i: nat)
    requires Accounted(c, s) && Kept(s) && At(s, i, Writing)
    ensures Kept(WriteStep(c, now, s, i)) <==> !StaleCompletion(s, WriteBack(i))
  {
    var t := WriteStep(c, now, s, i);
    assert ActivationOk(c, Attempts(s), s.acts[i]);
    assert forall k | 0 <= k < |s.acts| && k != i :: t.acts[k] == s.acts[k];
    if StaleCompletion(s, WriteBack(i)) {
      assert Deletes(t.acts[i]) && !Ended(t);
    } else if Deletes(t.acts[i]) {
      DeleteIsSafeIff(c, now, s, i);
    }
  }

  lemma ClaimKeptIff(c: Settings, now: int, s: JobState, i: nat)
    requires Kept(s) && At(s, i, Claiming)
    ensures Kept(ClaimStep(c, now, s, i)) <==> s.row.Some?
  {
    var t := ClaimStep(c, now, s, i);
    assert forall k | 0 <= k < |s.acts| && k != i :: t.acts[k] == s.acts[k];
    if s.row.None? {
      assert Unknown(t.acts[i]);
    }
  }

  /** The producer's steps, and new deliveries. */
  lemma ProducerKept(c: Settings, now: int, s: JobState, ev: JobEvent)
    requires Kept(s) && Enabled(s, ev)
    requires ev.Publish? || ev.PublishRaises? || ev.CommitEnqueued? || ev.CommitEnqueueFailed? || ev.Receive?
    ensures Kept(Next(c, now, s, ev))
  {
  }

  /** Steps of one activation that leave the row alone. */
  lemma MoveKept(c: Settings, now: int, s: JobState, ev: JobEvent, i: nat)
    requires Accounted(c, s) && Kept(s) && Enabled(s, ev) && i < |s.acts|
    requires || ev == ReadJob(i) || ev == BeginCall(i) || (ev.CallReturns? && ev.act == i)
             || ev == Acknowledge(i) || ev == ExtendVisibility(i)
    ensures Kept(Next(c, now, s, ev))
  {
    assert ActivationOk(c, Attempts(s), s.acts[i]);
    assert Next(c, now, s, ev).acts == s.acts[i := Next(c, now, s, ev).acts[i]];
    assert ev.Acknowledge? ==> Deletes(s.acts[i]);
  }

  lemma StepKeptIff(c: Settings, now: int, s: JobState, ev: JobEvent)
    requires Accounted(c, s) && Kept(s) && Enabled(s, ev)
    ensures Kept(Next(c, now, s, ev)) <==>
            Respects(c, NO_STALE_COMPLETION, now, s, ev) && Respects(c, NO_EARLY_DELIVERY, now, s, ev)
  {
    match ev
    case WriteBack(i) => WriteKeptIff(c, now, s, i);
    case Claim(i) => ClaimKeptIff(c, now, s, i);
    case ReadJob(i) => MoveKept(c, now, s, ev, i);
    case BeginCall(i) => MoveKept(c, now, s, ev, i);
    case CallReturns(i, _) => MoveKept(c, now, s, ev, i);
    case Acknowledge(i) => MoveKept(c, now, s, ev, i);
    case ExtendVisibility(i) => MoveKept(c, now, s, ev, i);
    case _ => ProducerKept(c, now, s, ev);
  }

  /** After every prefix of the run in which the job exists. */
  ghost predicate KeptThroughout(c: Settings, run: seq<Event>, id: JobId) {
    forall n | 0 <= n <= |run| && Has(c, run[..n], id) :: Kept(JobAfter(c, run[..n], id))
  }

  lemma KeptThroughoutFront(c: Settings, run: seq<Event>, id: JobId)
    requires run != []
    ensures KeptThroughout(c, run, id) <==>
            KeptThroughout(c, run[..|run| - 1], id) && (Has(c, run, id) ==> Kept(JobAfter(c, run, id)))
  {
    var front := run[..|run| - 1];
    assert run[..|run|] == run;
    assert forall n | 0 <= n <= |front| :: front[..n] == run[..n];
    if KeptThroughout(c, run, id) {
      forall n | 0 <= n <= |front| && Has(c, front[..n], id)
        ensures Kept(JobAfter(c, front[..n], id))
      {
        assert Has(c, run[..n], id);
      }
      assert Has(c, run, id) ==> Has(c, run[..|run|], id);
    } else {
      var n :| 0 <= n <= |run| && Has(c, run[..n], id) && !Kept(JobAfter(c, run[..n], id));
      assert n < |run| ==> Has(c, front[..n], id);
    }
  }

  /**
   In every run, whatever the timing, the crashes and the sends: throughout the run messages of this
   job are deleted only once it is terminal, and nobody is told that it is unknown, if and only if no
   success was written back to a released row and nothing was claimed before the row was committed.
   */
  lemma {:induction false} KeptIff(c: Settings, run: seq<Event>, id: JobId)
    requires ValidRun(c, run)
    ensures KeptThroughout(c, run, id) <==>
            Along(NO_STALE_COMPLETION, c, run, id) && Along(NO_EARLY_DELIVERY, c, run, id)
  {
    if run != [] {
      var front, e := run[..|run| - 1], run[|run| - 1];
      KeptIff(c, front, id);
      KeptThroughoutFront(c, run, id);
      if Has(c, front, id) && KeptThroughout(c, front, id) {
        LastEvent(c, run, id);
        assert front[..|front|] == front && Kept(JobAfter(c, front, id));
        RunIsAccounted(c, front, id);
        if e.Step? && e.id == id {
          StepKeptIff(c, Now(c, front), JobAfter(c, front, id), e.ev);
        }
      }
    }
  }

  /** A row of storage ingestion is committed before anything is published, so it needs no such hypothesis. */
  predicate CommittedFirst(c: Settings, run: seq<Event>, id: JobId)
    requires Has(c, run, id)
  {
    JobAfter(c, run, id).source.S3? || Along(NO_EARLY_DELIVERY, c, run, id)
  }

  lemma {:induction false} IngestedNeverEarly(c: Settings, run: seq<Event>, id: JobId)
    requires Has(c, run, id) && JobAfter(c, run, id).source.S3?
    ensures Along(NO_EARLY_DELIVERY, c, run, id)
  {
    if run != [] {
      var front := run[..|run| - 1];
      LastEvent(c, run, id);
      if Has(c, front, id) {
        assert JobAfter(c, front, id).source == JobAfter(c, run, id).source;
        IngestedNeverEarly(c, front, id);
        RunProducerOk(c, front, id);
      } else {
        AlongBeforeCreation(NO_EARLY_DELIVERY, c, front, id);
      }
    }
  }

  /** Writing back in time never meets a released row. */
  lemma {:induction false} TimelyNeverStale(c: Settings, run: seq<Event>, id: JobId)
    requires ValidRun(c, run) && Along(TIMELY, c, run, id)
    ensures Along(NO_STALE_COMPLETION, c, run, id)
  {
    if run != [] {
      var front, e := run[..|run| - 1], run[|run| - 1];
      TimelyNeverStale(c, front, id);
      if Has(c, front, id) {
        RunOneClaim(c, front, id);
        var s := JobAfter(c, front, id);
        if e.Step? && e.id == id && e.ev.WriteBack? {
          assert HoldsLiveClaim(Now(c, front), s.acts[e.ev.act]);
        }
      }
    }
  }

  /**
   The job is safe: it is terminal, or its producer has not got past a successful publish (it is
   still to publish, crashed there, or publishing raised and the failure is still to be recorded),
   or every message ever sent for it is still undeleted and there is at least one.
   */
  predicate Safe(s: JobState) {
    || Ended(s)
    || s.producer.Unsent?
    || s.producer.SendRaised?
    || (s.sent >= 1 && forall m: nat | m < s.sent :: m in s.queue)
  }

  /** No lost job, whatever the timing and the sends, as long as no success meets a released row. */
  lemma NoLostJobUnlessStale(c: Settings, run: seq<Event>, id: JobId)
    requires Has(c, run, id) && CommittedFirst(c, run, id) && Along(NO_STALE_COMPLETION, c, run, id)
    ensures Safe(JobAfter(c, run, id)) && Kept(JobAfter(c, run, id))
  {
    if JobAfter(c, run, id).source.S3? {
      IngestedNeverEarly(c, run, id);
    }
    KeptIff(c, run, id);
    RunProducerOk(c, run, id);
    assert run[..|run|] == run;
  }

  /**
   No lost job when workers write back in time, even if a publish raised after the message got out;
   and no activation of such a job is ever told that the job is unknown.
   */
  lemma NoLostJob(c: Settings, run: seq<Event>, id: JobId)
    requires Has(c, run, id) && CommittedFirst(c, run, id) && Along(TIMELY, c, run, id)
    ensures var s := JobAfter(c, run, id);
            && Safe(s)
            && (forall i | 0 <= i < |s.acts| && Deletes(s.acts[i]) :: Ended(s))
            && (forall i | 0 <= i < |s.acts| :: !Unknown(s.acts[i]))
  {
    TimelyNeverStale(c, run, id);
    NoLostJobUnlessStale(c, run, id);
  }

  /** A committed, unfinished job past its publish for which no message is left. */
  predicate Lost(s: JobState) {
    s.row.Some? && !Ended(s) && (s.producer.Sent? || s.producer.Finished?) && s.queue == {}
  }

  /**
   The converse: whenever a success meets a released row, that activation goes on to delete its
   message while the row is still pending. If it was the only message the job is lost.
   */
  lemma StaleCompletionLosesMessage(c: Settings, run: seq<Event>, id: JobId, i: nat)
    requires Has(c, run, id) && StaleCompletion(JobAfter(c, run, id), WriteBack(i))
    ensures var lost := run + [Step(id, WriteBack(i)), Step(id, Acknowledge(i))];
            var s := JobAfter(c, run, id);
            && Has(c, lost, id)
            && JobAfter(c, lost, id).row == s.row
            && JobAfter(c, lost, id).queue == s.queue - {s.acts[i].msg}
            && (s.queue <= {s.acts[i].msg} && s.producer.Finished? ==> Lost(JobAfter(c, lost, id)))
  {
    var one := OneMore(c, run, id, WriteBack(i));
    var two := OneMore(c, one, id, Acknowledge(i));
    assert two == run + [Step(id, WriteBack(i)), Step(id, Acknowledge(i))];
  }

  /**
   The converse for the API: whenever a delivery is claimed before the row is committed, its message
   is deleted as unknown, and the commit then leaves a pending row. If it was the only message the
   job is lost, however timely the workers are.
   */
  lemma EarlyDeliveryLosesMessage(c: Settings, run: seq<Event>, id: JobId, i: nat)
    requires Has(c, run, id) && JobAfter(c, run, id).row.None? && JobAfter(c, run, id).producer.Sent?
    requires At(JobAfter(c, run, id), i, Claiming)
    ensures var lost := run + [Step(id, Claim(i)), Step(id, Acknowledge(i)), Step(id, CommitEnqueued)];
            var s := JobAfter(c, run, id);
            && Has(c, lost, id)
            && JobAfter(c, lost, id).row == Some(EnqueuedRow(NewRow(Now(c, run)), Now(c, run)))
            && JobAfter(c, lost, id).queue == s.queue - {s.acts[i].msg}
            && (s.queue <= {s.acts[i].msg} ==> Lost(JobAfter(c, lost, id)))
  {
    var one := OneMore(c, run, id, Claim(i));
    var two := OneMore(c, one, id, Acknowledge(i));
    var three := OneMore(c, two, id, CommitEnqueued);
    assert three == run + [Step(id, Claim(i)), Step(id, Acknowledge(i)), Step(id, CommitEnqueued)];
  }
}
