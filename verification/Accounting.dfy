/**
 What holds of a job in every run, with no hypothesis about timing or sending: claim numbers are
 distinct, observed attempts never run behind them, and every claim, provider call and release is
 accounted for. From this follow the bound on attempts and the single retry of an invalid response.
 */
module Accounting {
  import opened Common
  import opened Jobs
  import opened RetryPolicy
  import opened Protocol

  function Attempts(s: JobState): nat {
    if s.row.None? then 0 else s.row.value.attemptCount
  }

  predicate Released(a: Activation) {
    a.write.WroteRelease? && a.write.took
  }

  /** The recorded write is the one that the retry policy prescribes for the reply and the attempt read. */
  predicate WroteItsPlan(c: Settings, a: Activation)
    requires !a.write.NotWritten?
  {
    a.reply.Some? && a.write == Written(PlanFor(c, a.attempt, a.reply.value), a.write.took)
  }

  /** What one activation's fields say to each other, when the row has counted n attempts. */
  ghost predicate ActivationOk(c: Settings, n: nat, a: Activation) {
    && a.claimNumber <= n
    && (a.phase.Claiming? ==> a.claimNumber == 0)
    && (a.phase.Reading? || a.phase.Ready? || a.phase.Calling? ==> a.claimNumber >= 1 && a.reply.None?)
    && (a.phase.Ready? || a.phase.Calling? ==> a.claimNumber <= a.attempt <= n)
    && (a.phase.Writing? ==> a.reply.Some?)
    && (a.reply.Some? ==> 1 <= a.claimNumber <= a.attempt <= n)
    && (!a.write.NotWritten? ==> WroteItsPlan(c, a))
    && (a.phase.Claiming? || Holding(a) ==> a.write.NotWritten? && !a.late)
  }

  ghost predicate DistinctClaims(acts: seq<Activation>) {
    forall i, j | 0 <= i < j < |acts| && acts[i].claimNumber == acts[j].claimNumber :: acts[i].claimNumber == 0
  }

  /** A call to the provider was begun: it is in flight, or died, or returned. */
  predicate Called(a: Activation) {
    a.phase.Calling? || a.reply.Some?
  }

  ghost function Callers(acts: seq<Activation>): set<nat> {
    set k | 0 <= k < |acts| && Called(acts[k]) :: acts[k].claimNumber
  }

  ghost function Releasers(acts: seq<Activation>): set<nat> {
    set k | 0 <= k < |acts| && Released(acts[k]) :: acts[k].claimNumber
  }

  /** Claims that found the row pending, as opposed to takeovers of a row in processing. */
  function FreshClaims(s: JobState): int {
    s.log.claims - s.log.takeovers
  }

  ghost predicate FreshOk(s: JobState) {
    if s.row.None? || s.row.value.status.Pending? then FreshClaims(s) == s.log.releases
    else if s.row.value.status.Processing? then FreshClaims(s) == s.log.releases + 1
    else FreshClaims(s) <= s.log.releases + 1
  }

  ghost predicate Accounted(c: Settings, s: JobState) {
    && (forall i | 0 <= i < |s.acts| :: ActivationOk(c, Attempts(s), s.acts[i]))
    && DistinctClaims(s.acts)
    && s.log.claims == Attempts(s)
    && s.log.calls == |Callers(s.acts)|
    && s.log.releases == |Releasers(s.acts)|
    && FreshOk(s)
  }

  // ----- One step keeps the accounts --------------------------------------------------------------

  /** Replacing an activation by one with the same claim, reply and release leaves both sets alone. */
  lemma SameSets(acts: seq<Activation>, i: nat, a: Activation)
    requires i < |acts|
    requires (Called(a) <==> Called(acts[i])) && (Released(a) <==> Released(acts[i]))
    requires a.claimNumber == acts[i].claimNumber || (!Called(a) && !Released(a))
    ensures Callers(acts[i := a]) == Callers(acts)
    ensures Releasers(acts[i := a]) == Releasers(acts)
  {
    var bs := acts[i := a];
    assert forall k | 0 <= k < |acts| && k != i :: bs[k] == acts[k];
    assert bs[i] == a;
    forall n ensures n in Callers(bs) <==> n in Callers(acts) {
      if k :| 0 <= k < |acts| && Called(acts[k]) && acts[k].claimNumber == n { assert bs[k].claimNumber == n; }
    }
    forall n ensures n in Releasers(bs) <==> n in Releasers(acts) {
      if k :| 0 <= k < |acts| && Released(acts[k]) && acts[k].claimNumber == n { assert Released(bs[k]); }
    }
  }

  lemma ReceiveKeepsSets(acts: seq<Activation>, a: Activation)
    requires !Called(a) && !Released(a)
    ensures Callers(acts + [a]) == Callers(acts)
    ensures Releasers(acts + [a]) == Releasers(acts)
  {
    var bs := acts + [a];
    forall n ensures n in Callers(bs) <==> n in Callers(acts) {
      if k :| 0 <= k < |acts| && Called(acts[k]) && acts[k].claimNumber == n { assert bs[k] == acts[k]; }
    }
    forall n ensures n in Releasers(bs) <==> n in Releasers(acts) {
      if k :| 0 <= k < |acts| && Released(acts[k]) && acts[k].claimNumber == n { assert bs[k] == acts[k]; }
    }
  }

  /** A call begun adds exactly this activation's claim number. */
  lemma CallAddsClaim(acts: seq<Activation>, i: nat, a: Activation)
    requires i < |acts| && DistinctClaims(acts) && acts[i].claimNumber >= 1
    requires !Called(acts[i]) && Called(a) && a.claimNumber == acts[i].claimNumber && a.write == acts[i].write
    ensures |Callers(acts[i := a])| == |Callers(acts)| + 1
    ensures Releasers(acts[i := a]) == Releasers(acts)
  {
    var bs, n := acts[i := a], a.claimNumber;
    assert bs[i] == a;
    assert n !in Callers(acts);
    forall x ensures x in Callers(bs) <==> x in Callers(acts) + {n} {
      if k :| 0 <= k < |acts| && Called(acts[k]) && acts[k].claimNumber == x { assert bs[k] == acts[k]; }
    }
    assert Callers(bs) == Callers(acts) + {n};
    forall x ensures x in Releasers(bs) <==> x in Releasers(acts) {
      if k :| 0 <= k < |acts| && Released(acts[k]) && acts[k].claimNumber == x { assert Released(bs[k]); }
    }
  }

  /** A write-back that released the row adds exactly this activation's claim number. */
  lemma ReleaseAddsClaim(acts: seq<Activation>, i: nat, a: Activation)
    requires i < |acts| && DistinctClaims(acts) && acts[i].claimNumber >= 1
    requires !Released(acts[i]) && Released(a)
    requires a.claimNumber == acts[i].claimNumber && (Called(a) <==> Called(acts[i]))
    ensures |Releasers(acts[i := a])| == |Releasers(acts)| + 1
    ensures Callers(acts[i := a]) == Callers(acts)
  {
    var bs, n := acts[i := a], a.claimNumber;
    assert bs[i] == a;
    assert n !in Releasers(acts);
    forall x ensures x in Releasers(bs) <==> x in Releasers(acts) + {n} {
      if k :| 0 <= k < |acts| && Released(acts[k]) && acts[k].claimNumber == x { assert bs[k] == acts[k]; }
    }
    assert Releasers(bs) == Releasers(acts) + {n};
    forall x ensures x in Callers(bs) <==> x in Callers(acts) {
      if k :| 0 <= k < |acts| && Called(acts[k]) && acts[k].claimNumber == x { assert Called(bs[k]); }
    }
  }

  lemma ClaimKeepsAccounts(c: Settings, now: int, s: JobState, i: nat)
    requires Accounted(c, s) && At(s, i, Claiming)
    ensures Accounted(c, ClaimStep(c, now, s, i))
  {
    SameSets(s.acts, i, ClaimStep(c, now, s, i).acts[i]);
  }

  lemma CallKeepsAccounts(c: Settings, now: int, s: JobState, i: nat)
    requires Accounted(c, s) && At(s, i, Ready)
    ensures Accounted(c, Next(c, now, s, BeginCall(i)))
  {
    CallAddsClaim(s.acts, i, s.acts[i].(phase := Calling));
  }

  /** Of the two sets a write-back only ever adds to the second, and only when it released the row. */
  lemma WriteKeepsSets(c: Settings, now: int, s: JobState, i: nat)
    requires DistinctClaims(s.acts) && At(s, i, Writing) && ActivationOk(c, Attempts(s), s.acts[i])
    ensures var t := WriteStep(c, now, s, i);
            && i < |t.acts| && Callers(t.acts) == Callers(s.acts)
            && |Releasers(t.acts)| == |Releasers(s.acts)| + if Released(t.acts[i]) then 1 else 0
  {
    var t := WriteStep(c, now, s, i);
    if Released(t.acts[i]) {
      ReleaseAddsClaim(s.acts, i, t.acts[i]);
    } else {
      SameSets(s.acts, i, t.acts[i]);
    }
  }

  lemma WriteKeepsAccounts(c: Settings, now: int, s: JobState, i: nat)
    requires Accounted(c, s) && At(s, i, Writing)
    ensures Accounted(c, WriteStep(c, now, s, i))
  {
    WriteKeepsSets(c, now, s, i);
  }

  /** Steps that only move one activation on: reading the row, a returning call, acknowledging, extending. */
  lemma MoveKeepsAccounts(c: Settings, s: JobState, t: JobState, i: nat)
    requires Accounted(c, s) && i < |s.acts| && ActivationOk(c, Attempts(s), s.acts[i])
    requires t.row == s.row && t.log == s.log && i < |t.acts| && t.acts == s.acts[i := t.acts[i]]
    requires t.acts[i].claimNumber == s.acts[i].claimNumber && (Called(t.acts[i]) <==> Called(s.acts[i]))
    requires t.acts[i].write == s.acts[i].write && ActivationOk(c, Attempts(s), t.acts[i])
    ensures Accounted(c, t)
  {
    SameSets(s.acts, i, t.acts[i]);
  }

  lemma ReceiveKeepsAccounts(c: Settings, now: int, s: JobState, m: nat)
    requires Accounted(c, s) && m < s.sent
    ensures Accounted(c, Next(c, now, s, Receive(m)))
  {
    ReceiveKeepsSets(s.acts, Next(c, now, s, Receive(m)).acts[|s.acts|]);
  }

  lemma ProducerKeepsAccounts(c: Settings, now: int, s: JobState, ev: JobEvent)
    requires Accounted(c, s) && Enabled(s, ev)
    requires ev.Publish? || ev.PublishRaises? || ev.CommitEnqueued? || ev.CommitEnqueueFailed?
    ensures Accounted(c, Next(c, now, s, ev))
  {
  }

  lemma StepKeepsAccounts(c: Settings, now: int, s: JobState, ev: JobEvent)
    requires Accounted(c, s) && Enabled(s, ev)
    ensures Accounted(c, Next(c, now, s, ev))
  {
    match ev
    case Receive(m) => ReceiveKeepsAccounts(c, now, s, m);
    case Claim(i) => ClaimKeepsAccounts(c, now, s, i);
    case ReadJob(i) => MoveKeepsAccounts(c, s, Next(c, now, s, ev), i);
    case BeginCall(i) => CallKeepsAccounts(c, now, s, i);
    case CallReturns(i, _) => MoveKeepsAccounts(c, s, Next(c, now, s, ev), i);
    case WriteBack(i) => WriteKeepsAccounts(c, now, s, i);
    case Acknowledge(i) => MoveKeepsAccounts(c, s, Next(c, now, s, ev), i);
    case ExtendVisibility(i) => MoveKeepsAccounts(c, s, Next(c, now, s, ev), i);
    case _ => ProducerKeepsAccounts(c, now, s, ev);
  }

  lemma {:induction false} RunIsAccounted(c: Settings, run: seq<Event>, id: JobId)
    requires Has(c, run, id)
    ensures Accounted(c, JobAfter(c, run, id))
  {
    if run != [] {
      var front, e := run[..|run| - 1], run[|run| - 1];
      LastEvent(c, run, id);
      if Has(c, front, id) {
        RunIsAccounted(c, front, id);
        if JobAfter(c, run, id) != JobAfter(c, front, id) {
          StepKeepsAccounts(c, Now(c, front), JobAfter(c, front, id), e.ev);
        }
      } else {
        assert Callers([]) == {} && Releasers([]) == {};
      }
    }
  }

  // ----- Consequences -----------------------------------------------------------------------------

  function UpTo(n: nat): (s: set<nat>)
    ensures |s| == n && forall k :: k in s <==> 1 <= k <= n
  {
    if n == 0 then {} else UpTo(n - 1) + {n}
  }

  lemma {:induction false} SubsetSize(a: set<nat>, b: set<nat>)
    requires a <= b
    ensures |a| <= |b|
  {
    if a != {} {
      var x :| x in a;
      SubsetSize(a - {x}, b - {x});
    }
  }

  /** Each effective release comes from a claim number below the cap, and no two from the same one. */
  lemma ReleasesBelowCap(c: Settings, s: JobState)
    requires Accounted(c, s) && c.maxAttempts >= 1
    ensures forall k: nat | k < |s.acts| && Released(s.acts[k]) :: 1 <= s.acts[k].claimNumber <= c.maxAttempts - 1
    ensures forall k: nat, l: nat | k < |s.acts| && l < |s.acts| && Released(s.acts[k]) && Released(s.acts[l])
              && s.acts[k].claimNumber == s.acts[l].claimNumber :: k == l
    ensures s.log.releases == |Releasers(s.acts)| <= c.maxAttempts - 1
  {
    forall k: nat | k < |s.acts| && Released(s.acts[k])
      ensures 1 <= s.acts[k].claimNumber <= c.maxAttempts - 1
    {
      assert ActivationOk(c, Attempts(s), s.acts[k]);
    }
    forall n | n in Releasers(s.acts)
      ensures n in UpTo(c.maxAttempts - 1)
    {
      var k :| 0 <= k < |s.acts| && Released(s.acts[k]) && s.acts[k].claimNumber == n;
    }
    SubsetSize(Releasers(s.acts), UpTo(c.maxAttempts - 1));
  }

  /**
   Bounded scoring, in every run with crashes, duplicates and stale writers: attempts beyond the cap
   are only ever takeovers of a claim that ran out.
   */
  lemma BoundedAttempts(c: Settings, run: seq<Event>, id: JobId)
    requires Has(c, run, id) && c.maxAttempts >= 1
    ensures var s := JobAfter(c, run, id);
            Attempts(s) <= c.maxAttempts + s.log.takeovers && s.log.releases <= c.maxAttempts - 1
  {
    RunIsAccounted(c, run, id);
    ReleasesBelowCap(c, JobAfter(c, run, id));
  }

  /**
   attempt_count is exactly the number of successful claims; the calls begun are those of distinct
   claims, and never exceed it, whether or not they return.
   */
  lemma CallsNeverExceedAttempts(c: Settings, run: seq<Event>, id: JobId)
    requires Has(c, run, id)
    ensures var s := JobAfter(c, run, id);
            s.log.claims == Attempts(s) && s.log.calls == |Callers(s.acts)| <= Attempts(s)
  {
    RunIsAccounted(c, run, id);
    var s := JobAfter(c, run, id);
    forall n | n in Callers(s.acts)
      ensures n in UpTo(Attempts(s))
    {
      var k :| 0 <= k < |s.acts| && Called(s.acts[k]) && s.acts[k].claimNumber == n;
      assert ActivationOk(c, Attempts(s), s.acts[k]);
    }
    SubsetSize(Callers(s.acts), UpTo(Attempts(s)));
  }

  /** This activation sent the job back for a retry because the response was invalid. */
  predicate RetriedInvalid(a: Activation) {
    a.write.WroteRelease? && a.reply.Some? && a.reply.value.Raised? && a.reply.value.error.InvalidResponse?
  }

  /**
   In any interleaving, stale workers included, at most one activation of a job ever retries an
   invalid response, and it is the one that made the first claim.
   */
  lemma OneInvalidRetry(c: Settings, run: seq<Event>, id: JobId, i: nat, j: nat)
    requires Has(c, run, id)
    requires i < |JobAfter(c, run, id).acts| && RetriedInvalid(JobAfter(c, run, id).acts[i])
    requires j < |JobAfter(c, run, id).acts| && RetriedInvalid(JobAfter(c, run, id).acts[j])
    ensures i == j && JobAfter(c, run, id).acts[i].claimNumber == 1
  {
    RunIsAccounted(c, run, id);
    var s := JobAfter(c, run, id);
    assert ActivationOk(c, Attempts(s), s.acts[i]) && ActivationOk(c, Attempts(s), s.acts[j]);
  }

  // ----- Terminal rows ------------------------------------------------------------------------------

  predicate Ended(s: JobState) {
    s.row.Some? && Terminal(s.row.value)
  }

  /** Run two is run one followed by more events. */
  predicate Continues(first: seq<Event>, second: seq<Event>) {
    first <= second
  }

  /** Activation i had already made its claim when the job was in state s. */
  predicate ClaimedBy(s: JobState, i: nat) {
    i < |s.acts| && s.acts[i].claimNumber >= 1
  }

  ghost predicate NoNewCalls(s: JobState, t: JobState) {
    && Ended(t)
    && |s.acts| <= |t.acts|
    && (forall i: nat | i < |t.acts| && !ClaimedBy(s, i) :: t.acts[i].claimNumber == 0)
    && Attempts(t) == Attempts(s)
  }

  lemma StepKeepsEnded(c: Settings, now: int, s: JobState, t: JobState, ev: JobEvent)
    requires NoNewCalls(s, t) && Enabled(t, ev)
    ensures NoNewCalls(s, Next(c, now, t, ev))
  {
  }

  lemma {:induction false} FinishedStays(c: Settings, first: seq<Event>, run: seq<Event>, id: JobId)
    requires Continues(first, run) && Has(c, first, id) && Has(c, run, id)
    requires Ended(JobAfter(c, first, id)) && Accounted(c, JobAfter(c, first, id))
    ensures NoNewCalls(JobAfter(c, first, id), JobAfter(c, run, id))
    decreases |run|
  {
    if |first| < |run| {
      var front, e := run[..|run| - 1], run[|run| - 1];
      LastEvent(c, run, id);
      HasGrows(c, first, front, id);
      FinishedStays(c, first, front, id);
      if JobAfter(c, run, id) != JobAfter(c, front, id) {
        StepKeepsEnded(c, Now(c, front), JobAfter(c, first, id), JobAfter(c, front, id), e.ev);
      }
    } else {
      assert first == run;
    }
  }

  lemma {:induction false} HasGrows(c: Settings, first: seq<Event>, run: seq<Event>, id: JobId)
    requires Continues(first, run) && Has(c, first, id) && ValidRun(c, run)
    ensures Has(c, run, id)
    decreases |run|
  {
    if |first| < |run| {
      HasGrows(c, first, run[..|run| - 1], id);
    } else {
      assert first == run;
    }
  }

  /**
   Once a job is terminal it stays terminal, its attempt count never changes again, and no
   activation that had not claimed it by then ever calls the provider, however many duplicate
   deliveries follow.
   */
  lemma NoCallAfterFinish(c: Settings, first: seq<Event>, run: seq<Event>, id: JobId, i: nat)
    requires Continues(first, run) && Has(c, first, id) && ValidRun(c, run)
    requires Ended(JobAfter(c, first, id))
    ensures Has(c, run, id)
    ensures var s, t := JobAfter(c, first, id), JobAfter(c, run, id);
            && Ended(t)
            && Attempts(t) == Attempts(s)
            && (i < |t.acts| && !ClaimedBy(s, i) ==>
                  t.acts[i].claimNumber == 0 && !Called(t.acts[i]) && t.acts[i].write.NotWritten?)
  {
    HasGrows(c, first, run, id);
    RunIsAccounted(c, first, id);
    RunIsAccounted(c, run, id);
    FinishedStays(c, first, run, id);
    var t := JobAfter(c, run, id);
    if i < |t.acts| {
      assert ActivationOk(c, Attempts(t), t.acts[i]);
    }
  }
}
