/**
 Runs that show why the hypotheses are needed. Each lemma returns a run that the protocol allows and
 in which a property fails although every other hypothesis of that property is respected.
 */
module Witnesses {
  import opened Common
  import opened Jobs
  import opened RetryPolicy
  import opened Protocol
  import opened Claims
  import opened Messages

  const JOB: JobId := 0

  /** The run leads to exactly this one job in state s, and respects the hypotheses hs. */
  ghost predicate Reached(c: Settings, run: seq<Event>, now: int, s: JobState, hs: set<Hypothesis>) {
    && Exec(c, run) == Some(System(now, map[JOB := s]))
    && forall h | h in hs :: Along(h, c, run, JOB)
  }

  lemma Begin(c: Settings, source: Source, hs: set<Hypothesis>) returns (run: seq<Event>)
    ensures Reached(c, run, 0, NewJob(source, 0), hs)
  {
    run := [Create(JOB, source)];
    assert run[..0] == [];
    assert Exec(c, []) == Some(System(0, map[]));
    assert forall h :: Along(h, c, [], JOB);
  }

  lemma Then(c: Settings, run: seq<Event>, now: int, s: JobState, ev: JobEvent, hs: set<Hypothesis>)
    returns (longer: seq<Event>)
    requires Reached(c, run, now, s, hs) && Enabled(s, ev)
    requires forall h | h in hs :: Respects(c, h, now, s, ev)
    ensures longer == run + [Step(JOB, ev)]
    ensures Reached(c, longer, now, Next(c, now, s, ev), hs)
  {
    longer := run + [Step(JOB, ev)];
    assert longer[..|longer| - 1] == run;
    assert map[JOB := s][JOB := Next(c, now, s, ev)] == map[JOB := Next(c, now, s, ev)];
  }

  lemma Later(c: Settings, run: seq<Event>, now: int, s: JobState, seconds: nat, hs: set<Hypothesis>)
    returns (longer: seq<Event>)
    requires Reached(c, run, now, s, hs)
    ensures Reached(c, longer, now + seconds, s, hs)
  {
    longer := run + [Tick(seconds)];
    assert longer[..|longer| - 1] == run;
  }

  const ROW0: Row := EnqueuedRow(NewRow(0), 0)

  /** A job whose one message was sent, and whose row is row. */
  function OneMessage(source: Source, row: Row, acts: seq<Activation>, log: Log): JobState {
    JobState(source, Finished, Some(row), {0}, 1, acts, log)
  }

  lemma Enqueued(c: Settings, hs: set<Hypothesis>) returns (run: seq<Event>)
    ensures Reached(c, run, 0, OneMessage(S3, ROW0, [], Log(0, 0, 0, 0, 0)), hs)
  {
    var s := NewJob(S3, 0);
    run := Begin(c, S3, hs);
    run := Then(c, run, 0, s, Publish(1), hs);
    s := Next(c, 0, s, Publish(1));
    assert MessageIds(0, 1) == {0} && s.queue == {0};
    run := Then(c, run, 0, s, CommitEnqueued, hs);
    assert Next(c, 0, s, CommitEnqueued) == OneMessage(S3, ROW0, [], Log(0, 0, 0, 0, 0));
  }

  const HOLDS: set<Hypothesis> := {DEFINITE_SEND, NO_EARLY_DELIVERY}

  /** The job after one more delivery was received, claimed and read, and its call begun. */
  function TakenUp(c: Settings, now: int, s: JobState): JobState
    requires s.row.Some?
  {
    var row := ClaimedRow(s.row.value, now, c.visibilityTimeout);
    var over := if s.row.value.status.Processing? then 1 else 0;
    s.(row := Some(row),
       acts := s.acts + [Activation(0, Calling, row.attemptCount, now + c.visibilityTimeout, row.attemptCount,
                                    None, NotWritten, false)],
       log := s.log.(claims := s.log.claims + 1, takeovers := s.log.takeovers + over, calls := s.log.calls + 1))
  }

  lemma TakeUp(c: Settings, run: seq<Event>, now: int, s: JobState, hs: set<Hypothesis>)
    returns (longer: seq<Event>, t: JobState)
    requires Reached(c, run, now, s, hs) && s.sent == 1 && s.row.Some? && Claimable(s.row.value, now)
    ensures t == TakenUp(c, now, s) && Reached(c, longer, now, t, hs)
  {
    var i := |s.acts|;
    longer := Then(c, run, now, s, Receive(0), hs);
    t := Next(c, now, s, Receive(0));
    longer := Then(c, longer, now, t, Claim(i), hs);
    t := Next(c, now, t, Claim(i));
    longer := Then(c, longer, now, t, ReadJob(i), hs);
    t := Next(c, now, t, ReadJob(i));
    longer := Then(c, longer, now, t, BeginCall(i), hs);
    t := Next(c, now, t, BeginCall(i));
    assert t.acts == TakenUp(c, now, s).acts;
  }

  /** Activation i, still within its claim, gets a score and writes it back. */
  lemma Score(c: Settings, run: seq<Event>, now: int, s: JobState, i: nat, o: ScoringOutcome, hs: set<Hypothesis>)
    returns (longer: seq<Event>, t: JobState)
    requires Reached(c, run, now, s, hs) && NO_STALE_COMPLETION !in hs && OWN_WRITES !in hs
    requires At(s, i, Calling) && now <= s.acts[i].expiry
    requires s.row.Some? && s.row.value.status.Processing?
    ensures Reached(c, longer, now, t, hs)
    ensures t.row == Some(CompletedRow(s.row.value, now, o)) && t.producer == s.producer
    ensures t.log.terminals == s.log.terminals + 1
  {
    longer := Then(c, run, now, s, CallReturns(i, Scored(o)), hs);
    t := Next(c, now, s, CallReturns(i, Scored(o)));
    longer := Then(c, longer, now, t, WriteBack(i), hs);
    t := WriteStep(c, now, t, i);
  }

  /** Two workers hold a claim each, the second one after the first one's claim expired. */
  lemma Overtaken(c: Settings) returns (run: seq<Event>, s: JobState)
    ensures Reached(c, run, c.visibilityTimeout + 1, s, HOLDS)
    ensures s.source.S3? && s.producer.Finished? && s.queue == {0} && s.row.Some? && s.row.value.status.Processing?
    ensures |s.acts| == 2
    ensures s.acts[0].phase.Calling? && s.acts[0].attempt == 1 && s.acts[0].msg == 0
    ensures s.acts[1].phase.Calling? && s.acts[1].msg == 0
  {
    s := OneMessage(S3, ROW0, [], Log(0, 0, 0, 0, 0));
    run := Enqueued(c, HOLDS);
    run, s := TakeUp(c, run, 0, s, HOLDS);
    run := Later(c, run, 0, s, c.visibilityTimeout + 1, HOLDS);
    run, s := TakeUp(c, run, c.visibilityTimeout + 1, s, HOLDS);
  }

  /** The first of the two then releases the row, although its claim is long gone. */
  lemma ReleasedLate(c: Settings) returns (run: seq<Event>, s: JobState)
    requires c.maxAttempts >= 2
    ensures Reached(c, run, c.visibilityTimeout + 1, s, HOLDS)
    ensures s.source.S3? && s.producer.Finished? && s.queue == {0} && s.row.Some? && s.row.value.status.Pending?
    ensures |s.acts| == 2 && s.acts[1].phase.Calling? && s.acts[1].msg == 0
  {
    var t := c.visibilityTimeout + 1;
    var late := Raised(Transient(Timeout, ""));
    run, s := Overtaken(c);
    run := Then(c, run, t, s, CallReturns(0, late), HOLDS);
    s := Next(c, t, s, CallReturns(0, late));
    run := Then(c, run, t, s, WriteBack(0), HOLDS);
    s := Next(c, t, s, WriteBack(0));
  }

  /**
   Without TIMELY a job can be lost: a slow worker's late release puts the row back to pending, the
   worker that took over then finds its success refused, reports LOST_CLAIM and deletes the message.
   */
  lemma LateReleaseLosesJob(c: Settings, o: ScoringOutcome) returns (run: seq<Event>)
    requires c.maxAttempts >= 2
    ensures Has(c, run, JOB) && JobAfter(c, run, JOB).source.S3?
    ensures Along(DEFINITE_SEND, c, run, JOB) && Along(NO_EARLY_DELIVERY, c, run, JOB)
    ensures Lost(JobAfter(c, run, JOB))
    ensures exists a :: a in JobAfter(c, run, JOB).acts && a.phase == Done(LostClaim)
  {
    var t := c.visibilityTimeout + 1;
    var s;
    run, s := ReleasedLate(c);
    run := Then(c, run, t, s, CallReturns(1, Scored(o)), HOLDS);
    s := Next(c, t, s, CallReturns(1, Scored(o)));
    run := Then(c, run, t, s, WriteBack(1), HOLDS);
    s := Next(c, t, s, WriteBack(1));
    run := Then(c, run, t, s, Acknowledge(1), HOLDS);
    s := Next(c, t, s, Acknowledge(1));
    assert s.acts[1].phase == Done(LostClaim);
  }

  /**
   TIMELY is more than a writer needs: a success long after the claim ran out is still the writer's own
   to write when nobody has taken over.
   */
  lemma LateWriteCanBeOwn(c: Settings, o: ScoringOutcome) returns (run: seq<Event>)
    ensures Has(c, run, JOB) && !Along(TIMELY, c, run, JOB)
    ensures Along(OWN_WRITES, c, run, JOB) && Along(DEFINITE_SEND, c, run, JOB)
    ensures JobAfter(c, run, JOB).row.Some? && JobAfter(c, run, JOB).row.value.status.Completed?
  {
    var hs := {OWN_WRITES, DEFINITE_SEND};
    var t := c.visibilityTimeout + 1;
    var s := OneMessage(S3, ROW0, [], Log(0, 0, 0, 0, 0));
    run := Enqueued(c, hs);
    run, s := TakeUp(c, run, 0, s, hs);
    run := Later(c, run, 0, s, t, hs);
    run := Then(c, run, t, s, CallReturns(0, Scored(o)), hs);
    s := Next(c, t, s, CallReturns(0, Scored(o)));
    var before := run;
    run := Then(c, run, t, s, WriteBack(0), hs);
    assert run[..|run| - 1] == before;
    assert !Respects(c, TIMELY, t, s, WriteBack(0));
  }

  /**
   Without DEFINITE_SEND a finished job can be overwritten: the send raised although the message got
   through, a worker completed the job, and the producer then marks it failed. The row ends failed
   with a result, after two terminal transitions.
   */
  lemma EnqueueFailureOverwritesResult(c: Settings, o: ScoringOutcome) returns (run: seq<Event>, s: JobState)
    ensures Reached(c, run, 0, s, {TIMELY, NO_EARLY_DELIVERY})
    ensures s.log.terminals == 2
    ensures s.row.Some? && s.row.value.status.Failed? && ToResult(s.row.value) == Some(o.result)
    ensures !RowShape(s.row.value)
  {
    var hs := {TIMELY, NO_EARLY_DELIVERY};
    run, s := CompletedBeforeCommit(c, o, hs);
    run := Then(c, run, 0, s, CommitEnqueueFailed(""), hs);
    s := Next(c, 0, s, CommitEnqueueFailed(""));
  }

  /** In the same way it can take the row away from a worker that holds a live claim on it. */
  lemma EnqueueFailureTakesClaimAway(c: Settings) returns (run: seq<Event>, s: JobState)
    ensures Reached(c, run, 0, s, {TIMELY, NO_EARLY_DELIVERY})
    ensures |s.acts| == 1 && HoldsLiveClaim(0, s.acts[0]) && !Owns(s, s.acts[0])
  {
    var hs := {TIMELY, NO_EARLY_DELIVERY};
    run, s := RaisedButSent(c, 1, hs);
    run, s := TakeUp(c, run, 0, s, hs);
    run := Then(c, run, 0, s, CommitEnqueueFailed(""), hs);
    s := Next(c, 0, s, CommitEnqueueFailed(""));
  }

  /** The send raised, but its messages are in the queue all the same. */
  lemma RaisedButSent(c: Settings, copies: nat, hs: set<Hypothesis>) returns (run: seq<Event>, s: JobState)
    requires DEFINITE_SEND !in hs && copies >= 1
    ensures Reached(c, run, 0, s, hs)
    ensures s.producer.SendRaised? && s.sent == copies && s.acts == []
    ensures s.row == Some(NewRow(0)) && s.log.terminals == 0
  {
    s := NewJob(S3, 0);
    run := Begin(c, S3, hs);
    run := Then(c, run, 0, s, PublishRaises(copies), hs);
    s := Next(c, 0, s, PublishRaises(copies));
  }

  lemma CompletedBeforeCommit(c: Settings, o: ScoringOutcome, hs: set<Hypothesis>)
    returns (run: seq<Event>, s: JobState)
    requires DEFINITE_SEND !in hs && NO_STALE_COMPLETION !in hs && OWN_WRITES !in hs
    ensures Reached(c, run, 0, s, hs) && s.producer.SendRaised? && s.log.terminals == 1
    ensures s.row.Some? && s.row.value.status.Completed? && ToResult(s.row.value) == Some(o.result)
  {
    run, s := RaisedButSent(c, 1, hs);
    run, s := TakeUp(c, run, 0, s, hs);
    run, s := Score(c, run, 0, s, 0, o, hs);
  }

  /**
   A job submitted through the API can be lost although workers are timely and sending is definite:
   its message is delivered before the request commits the row, and is deleted as unknown.
   */
  lemma EarlyDeliveryLosesApiJob(c: Settings) returns (run: seq<Event>)
    ensures Has(c, run, JOB) && Along(TIMELY, c, run, JOB) && Along(DEFINITE_SEND, c, run, JOB)
    ensures JobAfter(c, run, JOB).source.Api? && Lost(JobAfter(c, run, JOB))
  {
    var hs := {TIMELY, DEFINITE_SEND};
    run := Begin(c, Api, hs);
    run := Then(c, run, 0, NewJob(Api, 0), Publish(1), hs);
    var s := Next(c, 0, NewJob(Api, 0), Publish(1));
    assert MessageIds(0, 1) == {0} && s.queue == {0};
    run := Then(c, run, 0, s, Receive(0), hs);
    s := Next(c, 0, s, Receive(0));
    run := Then(c, run, 0, s, Claim(0), hs);
    s := Next(c, 0, s, Claim(0));
    run := Then(c, run, 0, s, Acknowledge(0), hs);
    s := Next(c, 0, s, Acknowledge(0));
    assert s.queue == {};
    run := Then(c, run, 0, s, CommitEnqueued, hs);
  }

  /**
   The attempt cap bounds retries, not claims: workers that die after claiming drive attempt_count
   as high as one likes, each time by a takeover. So the bound with takeovers cannot lose that term.
   */
  lemma {:induction false} CrashesExceedAnyCap(c: Settings, n: nat) returns (run: seq<Event>, now: int, s: JobState)
    ensures Reached(c, run, now, s, {TIMELY, DEFINITE_SEND}) && s.sent == 1
    ensures s.row.Some? && s.row.value.attemptCount == n + 1 && s.log.takeovers == n
    ensures s.row.value.status.Processing? && Claimable(s.row.value, now)
  {
    var hs := {TIMELY, DEFINITE_SEND};
    if n == 0 {
      run := Enqueued(c, hs);
      now := 0;
      s := OneMessage(S3, ROW0, [], Log(0, 0, 0, 0, 0));
    } else {
      run, now, s := CrashesExceedAnyCap(c, n - 1);
    }
    run, s := TakeUp(c, run, now, s, hs);
    run := Later(c, run, now, s, c.visibilityTimeout + 1, hs);
    now := now + (c.visibilityTimeout + 1);
  }
}
