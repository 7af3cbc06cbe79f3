/**
 Claims. When workers write back before their own claim expires (TIMELY), at most one of them holds a
 live claim. In any timing, attempts beyond the cap are paid for by claims that ran out, and a live claim
 owns its row and no write-back is refused exactly as long as every write-back is the writer's own to
 make and no enqueue failure is recorded on a live claim.
 */
module Claims {
  import opened Common
  import opened Jobs
  import opened RetryPolicy
  import opened Protocol
  import opened Accounting
  import opened Lifecycle

  // ----- A row in processing has a holder -----------------------------------------------------------

  /** The activation whose claim the row shows, still to write back. */
  predicate Holds(r: Row, a: Activation) {
    Holding(a) && a.claimNumber == r.attemptCount && r.lockedUntil == Some(a.expiry)
  }

  ghost predicate Held(s: JobState) {
    s.row.Some? && s.row.value.status.Processing? ==>
      exists i :: 0 <= i < |s.acts| && Holds(s.row.value, s.acts[i])
  }

  lemma ClaimHeld(c: Settings, now: int, s: JobState, i: nat)
    requires Held(s) && At(s, i, Claiming)
    ensures Held(ClaimStep(c, now, s, i))
  {
    var t := ClaimStep(c, now, s, i);
    if t.row != s.row {
      assert Holds(t.row.value, t.acts[i]);
    } else if t.row.Some? && t.row.value.status.Processing? {
      var k :| 0 <= k < |s.acts| && Holds(s.row.value, s.acts[k]);
      assert Holds(t.row.value, t.acts[k]);
    }
  }

  /** A write-back always ends processing, whoever makes it. */
  lemma WriteEndsProcessing(c: Settings, now: int, s: JobState, i: nat)
    requires Accounted(c, s) && At(s, i, Writing)
    ensures s.row.Some? && WriteStep(c, now, s, i).row.Some?
    ensures !WriteStep(c, now, s, i).row.value.status.Processing?
  {
    assert ActivationOk(c, Attempts(s), s.acts[i]);
  }

  lemma QuietHeld(s: JobState, t: JobState)
    requires Held(s) && |s.acts| <= |t.acts|
    requires t.row.Some? && t.row.value.status.Processing? ==>
               s.row.Some? && s.row.value.status.Processing?
               && forall k | 0 <= k < |s.acts| && Holds(s.row.value, s.acts[k]) :: Holds(t.row.value, t.acts[k])
    ensures Held(t)
  {
    if t.row.Some? && t.row.value.status.Processing? {
      var k :| 0 <= k < |s.acts| && Holds(s.row.value, s.acts[k]);
      assert Holds(t.row.value, t.acts[k]);
    }
  }

  lemma StepHeld(c: Settings, now: int, s: JobState, ev: JobEvent)
    requires Accounted(c, s) && Held(s) && Enabled(s, ev)
    ensures Held(Next(c, now, s, ev))
  {
    if ev.WriteBack? {
      WriteEndsProcessing(c, now, s, ev.act);
    } else if ev.Claim? {
      ClaimHeld(c, now, s, ev.act);
    } else {
      QuietHeld(s, Next(c, now, s, ev));
    }
  }

  /** In every run, with no hypothesis at all. */
  lemma {:induction false} RunHeld(c: Settings, run: seq<Event>, id: JobId)
    requires Has(c, run, id)
    ensures Held(JobAfter(c, run, id))
  {
    if run != [] {
      var front, e := run[..|run| - 1], run[|run| - 1];
      LastEvent(c, run, id);
      if Has(c, front, id) {
        RunHeld(c, front, id);
        RunIsAccounted(c, front, id);
        if e.Step? && e.id == id {
          StepHeld(c, Now(c, front), JobAfter(c, front, id), e.ev);
        }
      }
    }
  }

  // ----- One live claim -----------------------------------------------------------------------------

  /** Between its claim and its write-back, with the claim not yet expired. */
  predicate HoldsLiveClaim(now: int, a: Activation) {
    Holding(a) && now <= a.expiry
  }

  /** The row agrees that activation a owns the job. */
  predicate Owns(s: JobState, a: Activation) {
    && s.row.Some?
    && s.row.value.status.Processing?
    && s.row.value.lockedUntil == Some(a.expiry)
    && s.row.value.attemptCount == a.claimNumber
    && (a.phase.Ready? || a.phase.Calling? || a.phase.Writing? ==> a.attempt == a.claimNumber)
  }

  /** Live claims are unique, and own the row until the job has ended. */
  ghost predicate OneClaim(now: int, s: JobState) {
    && (forall i | 0 <= i < |s.acts| && HoldsLiveClaim(now, s.acts[i]) :: Owns(s, s.acts[i]) || Ended(s))
    && (forall i, j | 0 <= i < |s.acts| && 0 <= j < |s.acts|
                      && HoldsLiveClaim(now, s.acts[i]) && HoldsLiveClaim(now, s.acts[j]) :: i == j)
  }

  lemma ClaimOneClaim(c: Settings, now: int, s: JobState, i: nat)
    requires OneClaim(now, s) && At(s, i, Claiming)
    ensures OneClaim(now, ClaimStep(c, now, s, i))
  {
    var t := ClaimStep(c, now, s, i);
    assert forall k | 0 <= k < |s.acts| && k != i :: t.acts[k] == s.acts[k];
  }

  lemma WriteOneClaim(c: Settings, now: int, s: JobState, i: nat)
    requires Accounted(c, s) && OneClaim(now, s) && At(s, i, Writing) && now <= s.acts[i].expiry
    ensures OneClaim(now, WriteStep(c, now, s, i))
  {
    var t := WriteStep(c, now, s, i);
    assert HoldsLiveClaim(now, s.acts[i]);
    assert ActivationOk(c, Attempts(s), s.acts[i]);
    assert forall k | 0 <= k < |s.acts| && k != i :: t.acts[k] == s.acts[k];
  }

  /** Steps that make no new claim and either keep the row's claim or end the job. */
  lemma QuietOneClaim(now: int, s: JobState, t: JobState)
    requires OneClaim(now, s)
    requires forall k | 0 <= k < |t.acts| && HoldsLiveClaim(now, t.acts[k]) ::
               k < |s.acts| && HoldsLiveClaim(now, s.acts[k]) && (Owns(s, s.acts[k]) ==> Owns(t, t.acts[k]) || Ended(t))
    requires Ended(s) ==> Ended(t)
    ensures OneClaim(now, t)
  {
  }

  lemma OtherOneClaim(c: Settings, now: int, s: JobState, ev: JobEvent)
    requires Accounted(c, s) && OneClaim(now, s) && Enabled(s, ev) && !ev.WriteBack? && !ev.Claim?
    ensures OneClaim(now, Next(c, now, s, ev))
  {
    if ev.ReadJob? {
      assert ActivationOk(c, Attempts(s), s.acts[ev.act]);
    }
    QuietOneClaim(now, s, Next(c, now, s, ev));
  }

  lemma StepOneClaim(c: Settings, now: int, s: JobState, ev: JobEvent)
    requires Accounted(c, s) && OneClaim(now, s) && Enabled(s, ev) && Respects(c, TIMELY, now, s, ev)
    ensures OneClaim(now, Next(c, now, s, ev))
  {
    if ev.WriteBack? {
      WriteOneClaim(c, now, s, ev.act);
    } else if ev.Claim? {
      ClaimOneClaim(c, now, s, ev.act);
    } else {
      OtherOneClaim(c, now, s, ev);
    }
  }

  lemma {:induction false} RunOneClaim(c: Settings, run: seq<Event>, id: JobId)
    requires Has(c, run, id) && Along(TIMELY, c, run, id)
    ensures OneClaim(Now(c, run), JobAfter(c, run, id))
  {
    if run != [] {
      var front, e := run[..|run| - 1], run[|run| - 1];
      LastEvent(c, run, id);
      if Has(c, front, id) {
        RunOneClaim(c, front, id);
        RunIsAccounted(c, front, id);
        if e.Step? && e.id == id {
          StepOneClaim(c, Now(c, front), JobAfter(c, front, id), e.ev);
        } else {
          var s := JobAfter(c, front, id);
          assert forall i | 0 <= i < |s.acts| && HoldsLiveClaim(Now(c, run), s.acts[i]) ::
                   HoldsLiveClaim(Now(c, front), s.acts[i]);
        }
      }
    }
  }

  /**
   When workers write back in time, at most one activation of a job holds a live claim, and unless the
   job has ended it is the one that the row names and decides on its own attempt number.
   */
  lemma AtMostOneLiveClaim(c: Settings, run: seq<Event>, id: JobId, i: nat, j: nat)
    requires Has(c, run, id) && Along(TIMELY, c, run, id)
    requires i < |JobAfter(c, run, id).acts| && HoldsLiveClaim(Now(c, run), JobAfter(c, run, id).acts[i])
    requires j < |JobAfter(c, run, id).acts| && HoldsLiveClaim(Now(c, run), JobAfter(c, run, id).acts[j])
    ensures i == j
    ensures Owns(JobAfter(c, run, id), JobAfter(c, run, id).acts[i]) || Ended(JobAfter(c, run, id))
  {
    RunOneClaim(c, run, id);
  }

  // ----- Attempts beyond the cap --------------------------------------------------------------------

  /** Its claim ran out before it wrote back: the worker died, or is still to write, or wrote too late. */
  predicate RanOut(now: int, a: Activation) {
    a.late || (Holding(a) && a.expiry < now)
  }

  ghost function RunOut(now: int, acts: seq<Activation>): set<nat> {
    set k: nat | k < |acts| && RanOut(now, acts[k])
  }

  /** A row in processing whose claim has run out is open to one takeover. */
  function Open(now: int, s: JobState): nat {
    if s.row.Some? && s.row.value.status.Processing? && !ClaimedUntil(s.row.value, now) then 1 else 0
  }

  ghost predicate TakeoversPaid(now: int, s: JobState) {
    s.log.takeovers + Open(now, s) <= |RunOut(now, s.acts)|
  }

  lemma SameRunOut(now: int, s: JobState, t: JobState)
    requires |s.acts| <= |t.acts|
    requires forall k | 0 <= k < |s.acts| :: RanOut(now, t.acts[k]) <==> RanOut(now, s.acts[k])
    requires forall k | |s.acts| <= k < |t.acts| :: !RanOut(now, t.acts[k])
    ensures RunOut(now, t.acts) == RunOut(now, s.acts)
  {
  }

  /** No step adds or removes an activation whose claim ran out; only time does. */
  lemma StepRunOut(c: Settings, now: int, s: JobState, ev: JobEvent)
    requires Accounted(c, s) && Enabled(s, ev)
    ensures RunOut(now, Next(c, now, s, ev).acts) == RunOut(now, s.acts)
  {
    if ev.ReadJob? || ev.WriteBack? {
      assert ActivationOk(c, Attempts(s), s.acts[ev.act]);
    }
    SameRunOut(now, s, Next(c, now, s, ev));
  }

  /** Every takeover uses up an opening. */
  lemma StepTakeovers(c: Settings, now: int, s: JobState, ev: JobEvent)
    requires Accounted(c, s) && Enabled(s, ev)
    ensures var t := Next(c, now, s, ev);
            t.log.takeovers + Open(now, t) <= s.log.takeovers + Open(now, s)
  {
    if ev.WriteBack? {
      WriteEndsProcessing(c, now, s, ev.act);
    }
  }

  /** An opening appears when the holder's claim runs out. */
  lemma LaterPaid(c: Settings, now: int, later: int, s: JobState)
    requires Accounted(c, s) && TakeoversPaid(now, s) && Held(s) && now <= later
    ensures TakeoversPaid(later, s)
  {
    var before, after := RunOut(now, s.acts), RunOut(later, s.acts);
    SubsetSize(before, after);
    if Open(later, s) > Open(now, s) {
      var k: nat :| k < |s.acts| && Holds(s.row.value, s.acts[k]);
      assert ActivationOk(c, Attempts(s), s.acts[k]);
      assert k in after && k !in before;
      SubsetSize(before + {k}, after);
    }
  }

  lemma {:induction false} RunTakeoversPaid(c: Settings, run: seq<Event>, id: JobId)
    requires Has(c, run, id)
    ensures TakeoversPaid(Now(c, run), JobAfter(c, run, id))
  {
    if run != [] {
      var front, e := run[..|run| - 1], run[|run| - 1];
      LastEvent(c, run, id);
      if Has(c, front, id) {
        var s := JobAfter(c, front, id);
        RunTakeoversPaid(c, front, id);
        RunIsAccounted(c, front, id);
        RunHeld(c, front, id);
        if e.Step? && e.id == id {
          StepRunOut(c, Now(c, front), s, e.ev);
          StepTakeovers(c, Now(c, front), s, e.ev);
        } else {
          LaterPaid(c, Now(c, front), Now(c, run), s);
        }
      }
    }
  }

  lemma {:induction false} TimelyNeverLate(c: Settings, run: seq<Event>, id: JobId)
    requires Has(c, run, id) && Along(TIMELY, c, run, id)
    ensures forall k | 0 <= k < |JobAfter(c, run, id).acts| :: !JobAfter(c, run, id).acts[k].late
  {
    if run != [] {
      LastEvent(c, run, id);
      if Has(c, run[..|run| - 1], id) {
        TimelyNeverLate(c, run[..|run| - 1], id);
      }
    }
  }

  /**
   In every run, attempts exceed the cap by at most the number of activations that let their claim run
   out before they wrote back. When no worker writes late, these are the ones that never wrote at all.
   */
  lemma AttemptsBoundedByRunOut(c: Settings, run: seq<Event>, id: JobId)
    requires Has(c, run, id) && c.maxAttempts >= 1
    ensures var s := JobAfter(c, run, id);
            && s.log.takeovers <= |RunOut(Now(c, run), s.acts)|
            && Attempts(s) <= c.maxAttempts + |RunOut(Now(c, run), s.acts)|
    ensures Along(TIMELY, c, run, id) ==>
              forall k: nat | k in RunOut(Now(c, run), JobAfter(c, run, id).acts) ::
                k < |JobAfter(c, run, id).acts| && Holding(JobAfter(c, run, id).acts[k])
  {
    RunTakeoversPaid(c, run, id);
    BoundedAttempts(c, run, id);
    if Along(TIMELY, c, run, id) {
      TimelyNeverLate(c, run, id);
    }
  }

  // ----- Ownership, exactly -------------------------------------------------------------------------

  predicate WriteTook(a: Activation) {
    && (!a.write.NotWritten? ==> a.write.took)
    && a.phase != Acknowledging(LostClaim) && a.phase != Done(LostClaim)
  }

  /** Every live claim owns the row, and no write-back was refused. */
  ghost predicate Exclusive(now: int, s: JobState) {
    && (forall i | 0 <= i < |s.acts| && HoldsLiveClaim(now, s.acts[i]) :: Owns(s, s.acts[i]))
    && (forall i | 0 <= i < |s.acts| :: WriteTook(s.acts[i]))
  }

  lemma ClaimExclusive(c: Settings, now: int, s: JobState, i: nat)
    requires Exclusive(now, s) && At(s, i, Claiming)
    ensures Exclusive(now, ClaimStep(c, now, s, i))
  {
    var t := ClaimStep(c, now, s, i);
    assert forall k | 0 <= k < |s.acts| && k != i :: t.acts[k] == s.acts[k];
  }

  /** A writer that may write leaves nobody behind who thinks that the row is his. */
  lemma OwnWriteExclusive(c: Settings, now: int, s: JobState, i: nat)
    requires Accounted(c, s) && Exclusive(now, s) && At(s, i, Writing)
    requires s.row.Some? && OwnWrite(c, now, s.row.value, s.acts[i])
    ensures Exclusive(now, WriteStep(c, now, s, i))
  {
    var t := WriteStep(c, now, s, i);
    assert ActivationOk(c, Attempts(s), s.acts[i]);
    forall k | 0 <= k < |t.acts|
      ensures WriteTook(t.acts[k]) && !HoldsLiveClaim(now, t.acts[k])
    {
      assert HoldsLiveClaim(now, s.acts[k]) ==> Owns(s, s.acts[k]);
    }
  }

  /** One that may not is refused, or takes the row from its holder. */
  lemma ForeignWriteNotExclusive(c: Settings, now: int, s: JobState, i: nat)
    requires Accounted(c, s) && Held(s) && At(s, i, Writing)
    requires s.row.Some? && !OwnWrite(c, now, s.row.value, s.acts[i])
    ensures !Exclusive(now, WriteStep(c, now, s, i))
  {
    var t := WriteStep(c, now, s, i);
    assert ActivationOk(c, Attempts(s), s.acts[i]);
    WriteEndsProcessing(c, now, s, i);
    if Matches(PlanFor(c, s.acts[i].attempt, s.acts[i].reply.value), s.row.value) {
      var k :| 0 <= k < |s.acts| && Holds(s.row.value, s.acts[k]);
      assert HoldsLiveClaim(now, t.acts[k]) && !Owns(t, t.acts[k]);
    } else {
      assert !WriteTook(t.acts[i]);
    }
  }

  /** A failure recorded on a live claim takes the row away from the one that holds the claim. */
  lemma FailureExclusiveIff(c: Settings, now: int, s: JobState, error: string)
    requires Held(s) && Exclusive(now, s) && s.producer.SendRaised?
    ensures Exclusive(now, Next(c, now, s, CommitEnqueueFailed(error))) <==>
            !(s.row.Some? && ClaimedUntil(s.row.value, now))
  {
    var t := Next(c, now, s, CommitEnqueueFailed(error));
    if s.row.Some? && ClaimedUntil(s.row.value, now) {
      var k :| 0 <= k < |s.acts| && Holds(s.row.value, s.acts[k]);
      assert HoldsLiveClaim(now, t.acts[k]) && !Owns(t, t.acts[k]);
    } else {
      forall k | 0 <= k < |t.acts|
        ensures !HoldsLiveClaim(now, t.acts[k])
      {
        assert HoldsLiveClaim(now, s.acts[k]) ==> Owns(s, s.acts[k]);
      }
    }
  }

  /** Steps that leave every activation's claim alone and keep the row's claim. */
  lemma QuietExclusive(now: int, s: JobState, t: JobState)
    requires Exclusive(now, s)
    requires forall k | 0 <= k < |t.acts| && HoldsLiveClaim(now, t.acts[k]) ::
               k < |s.acts| && HoldsLiveClaim(now, s.acts[k]) && (Owns(s, s.acts[k]) ==> Owns(t, t.acts[k]))
    requires forall k | 0 <= k < |t.acts| :: (k < |s.acts| ==> WriteTook(s.acts[k])) ==> WriteTook(t.acts[k])
    ensures Exclusive(now, t)
  {
  }

  lemma OtherExclusive(c: Settings, now: int, s: JobState, ev: JobEvent)
    requires Accounted(c, s) && Exclusive(now, s) && Enabled(s, ev)
    requires !ev.WriteBack? && !ev.Claim? && !ev.CommitEnqueueFailed?
    ensures Exclusive(now, Next(c, now, s, ev))
  {
    if ev.ReadJob? {
      assert ActivationOk(c, Attempts(s), s.acts[ev.act]);
    }
    QuietExclusive(now, s, Next(c, now, s, ev));
  }

  /**
   Exactly which steps keep it: all but a write-back that is not the writer's own to make and an
   enqueue failure recorded on a live claim.
   */
  lemma StepExclusiveIff(c: Settings, now: int, s: JobState, ev: JobEvent)
    requires Accounted(c, s) && Held(s) && Exclusive(now, s) && Enabled(s, ev)
    ensures Exclusive(now, Next(c, now, s, ev)) <==>
            Respects(c, OWN_WRITES, now, s, ev) && Respects(c, NO_OVERWRITTEN_CLAIM, now, s, ev)
  {
    if ev.WriteBack? {
      WriteEndsProcessing(c, now, s, ev.act);
      if OwnWrite(c, now, s.row.value, s.acts[ev.act]) {
        OwnWriteExclusive(c, now, s, ev.act);
      } else {
        ForeignWriteNotExclusive(c, now, s, ev.act);
      }
    } else if ev.Claim? {
      ClaimExclusive(c, now, s, ev.act);
    } else if ev.CommitEnqueueFailed? {
      FailureExclusiveIff(c, now, s, ev.error);
    } else {
      OtherExclusive(c, now, s, ev);
    }
  }

  /** After every prefix of the run in which the job exists. */
  ghost predicate ExclusiveThroughout(c: Settings, run: seq<Event>, id: JobId) {
    forall n | 0 <= n <= |run| && Has(c, run[..n], id) :: Exclusive(Now(c, run[..n]), JobAfter(c, run[..n], id))
  }

  lemma ExclusiveThroughoutFront(c: Settings, run: seq<Event>, id: JobId)
    requires run != []
    ensures ExclusiveThroughout(c, run, id) <==>
            && ExclusiveThroughout(c, run[..|run| - 1], id)
            && (Has(c, run, id) ==> Exclusive(Now(c, run), JobAfter(c, run, id)))
  {
    var front := run[..|run| - 1];
    assert run[..|run|] == run;
    assert forall n | 0 <= n <= |front| :: front[..n] == run[..n];
    if ExclusiveThroughout(c, run, id) {
      forall n | 0 <= n <= |front| && Has(c, front[..n], id)
        ensures Exclusive(Now(c, front[..n]), JobAfter(c, front[..n], id))
      {
        assert Has(c, run[..n], id);
      }
      assert Has(c, run, id) ==> Has(c, run[..|run|], id);
    } else {
      var n :| 0 <= n <= |run| && Has(c, run[..n], id) && !Exclusive(Now(c, run[..n]), JobAfter(c, run[..n], id));
      assert n < |run| ==> Has(c, front[..n], id);
    }
  }

  /**
   In every run, whatever the timing, the crashes and the sends: throughout the run every live claim
   owns its row, every write-back takes effect and LOST_CLAIM is never reached, if and only if every
   write-back was the writer's own to make and no enqueue failure was recorded on a live claim.
   */
  lemma {:induction false} ExclusiveIff(c: Settings, run: seq<Event>, id: JobId)
    requires ValidRun(c, run)
    ensures ExclusiveThroughout(c, run, id) <==>
            Along(OWN_WRITES, c, run, id) && Along(NO_OVERWRITTEN_CLAIM, c, run, id)
  {
    if run != [] {
      var front, e := run[..|run| - 1], run[|run| - 1];
      ExclusiveIff(c, front, id);
      ExclusiveThroughoutFront(c, run, id);
      if Has(c, front, id) && ExclusiveThroughout(c, front, id) {
        LastEvent(c, run, id);
        var s := JobAfter(c, front, id);
        assert front[..|front|] == front && Exclusive(Now(c, front), s);
        RunHeld(c, front, id);
        RunIsAccounted(c, front, id);
        if e.Step? && e.id == id {
          StepExclusiveIff(c, Now(c, front), s, e.ev);
        } else {
          assert forall i | 0 <= i < |s.acts| && HoldsLiveClaim(Now(c, run), s.acts[i]) ::
                   HoldsLiveClaim(Now(c, front), s.acts[i]);
        }
      }
    }
  }

  /** A worker that writes in time writes to its own row, unless an enqueue failure took it away. */
  lemma {:induction false} TimelyWritesAreOwn(c: Settings, run: seq<Event>, id: JobId)
    requires ValidRun(c, run) && Along(TIMELY, c, run, id) && Along(NO_OVERWRITTEN_CLAIM, c, run, id)
    ensures Along(OWN_WRITES, c, run, id)
  {
    if run != [] {
      var front, e := run[..|run| - 1], run[|run| - 1];
      TimelyWritesAreOwn(c, front, id);
      if Has(c, front, id) && e.Step? && e.id == id && e.ev.WriteBack? {
        var s := JobAfter(c, front, id);
        ExclusiveIff(c, front, id);
        RunIsAccounted(c, front, id);
        assert front[..|front|] == front && Exclusive(Now(c, front), s);
        assert HoldsLiveClaim(Now(c, front), s.acts[e.ev.act]);
        assert ActivationOk(c, Attempts(s), s.acts[e.ev.act]);
      }
    }
  }

  /** So in timely runs only the enqueue failure is left as a condition. */
  lemma ExclusiveIffWhenTimely(c: Settings, run: seq<Event>, id: JobId)
    requires ValidRun(c, run) && Along(TIMELY, c, run, id)
    ensures ExclusiveThroughout(c, run, id) <==> Along(NO_OVERWRITTEN_CLAIM, c, run, id)
  {
    ExclusiveIff(c, run, id);
    if Along(NO_OVERWRITTEN_CLAIM, c, run, id) {
      TimelyWritesAreOwn(c, run, id);
    }
  }

  /** In particular no write-back is ever refused when also a raising publish enqueued nothing. */
  lemma NoWriteRefused(c: Settings, run: seq<Event>, id: JobId, i: nat)
    requires Has(c, run, id) && Along(TIMELY, c, run, id) && Along(DEFINITE_SEND, c, run, id)
    requires i < |JobAfter(c, run, id).acts|
    ensures WriteTook(JobAfter(c, run, id).acts[i])
    ensures HoldsLiveClaim(Now(c, run), JobAfter(c, run, id).acts[i]) ==>
              Owns(JobAfter(c, run, id), JobAfter(c, run, id).acts[i])
  {
    DefiniteSendNeverOverwrites(c, run, id);
    ExclusiveIffWhenTimely(c, run, id);
    assert run[..|run|] == run;
  }
}
