/**
 Any number of ingestors handling any objects at the same time, as interleaved steps. The only thing
 that keeps them apart is the unique constraint inside the insert transaction; whether an ingestor
 looks at the table first, and what it saw there by the time it inserts, does not matter.
 */
module IngestionRace {
  import opened Common
  import opened Jobs
  import opened Ingestion
  import opened RetryPolicy
  import Protocol

  datatype Stage =
    | Looking
    | Fetching
    | Rejecting(problem: string)
    | Inserting
    | Publishing(job: JobId)
    | Marking(job: JobId, raised: Option<string>)
    | Over(outcome: PollResult)

  /** One ingestor working on one listed object. */
  datatype Handler = Handler(identity: Identity, size: nat, stage: Stage)

  datatype Race = Race(world: World, handlers: seq<Handler>)

  datatype RaceEvent =
    | Begin(identity: Identity, size: nat)
    | Look(h: nat, skipCheck: bool)
    | Fetch(h: nat, read: ReadResult)
    | Reject(h: nat)
    | Insert(h: nat, job: JobId, now: int)
    | Send(h: nat, raised: Option<string>)
    | Finish(h: nat, now: int)

  predicate CanDo(r: Race, e: RaceEvent) {
    match e
    case Begin(_, _) => true
    case Look(h, _) => h < |r.handlers| && r.handlers[h].stage.Looking?
    case Fetch(h, _) => h < |r.handlers| && r.handlers[h].stage.Fetching?
    case Reject(h) => h < |r.handlers| && r.handlers[h].stage.Rejecting?
    case Insert(h, _, _) => h < |r.handlers| && r.handlers[h].stage.Inserting?
    case Send(h, _) => h < |r.handlers| && r.handlers[h].stage.Publishing?
    case Finish(h, _) => h < |r.handlers| && r.handlers[h].stage.Marking?
  }

  function Moved(r: Race, h: nat, stage: Stage): Race
    requires h < |r.handlers|
  {
    r.(handlers := r.handlers[h := r.handlers[h].(stage := stage)])
  }

  function InsertStep(r: Race, h: nat, job: JobId, now: int): Race
    requires h < |r.handlers|
  {
    var inserted := InsertJob(r.world, r.handlers[h].identity, r.handlers[h].size, job, now);
    if inserted.None? then Moved(r, h, Over(DUPLICATE))
    else Moved(r, h, Publishing(job)).(world := inserted.value)
  }

  function Do(r: Race, e: RaceEvent): Race
    requires CanDo(r, e)
  {
    match e
    case Begin(identity, size) => r.(handlers := r.handlers + [Handler(identity, size, Looking)])
    case Look(h, skipCheck) =>
      Moved(r, h, if !skipCheck && Seen(r.world, r.handlers[h].identity) then Over(DUPLICATE) else Fetching)
    case Fetch(h, read) =>
      var stage := match read
                   case ReadFails => Over(FAILED)
                   case ReadInvalid(p) => Rejecting(p)
                   case ReadValid => Inserting;
      Moved(r, h, stage)
    case Reject(h) =>
      var recorded := RecordInvalid(r.world, r.handlers[h].identity, r.handlers[h].size, r.handlers[h].stage.problem);
      Moved(r, h, Over(INVALID)).(world := if recorded.Some? then recorded.value else r.world)
    case Insert(h, job, now) => InsertStep(r, h, job, now)
    case Send(h, raised) =>
      var job := r.handlers[h].stage.job;
      Moved(r, h, Marking(job, raised)).(world := Publish(r.world, job))
    case Finish(h, now) =>
      var s := r.handlers[h].stage;
      Moved(r, h, Over(if s.raised.Some? then FAILED else INGESTED)).(world := Mark(r.world, s.job, s.raised, now))
  }

  /** The race after the events, as far as each of them can happen; others are skipped. */
  function After(events: seq<RaceEvent>): Race {
    if events == [] then Race(World([], map[], []), [])
    else
      var before := After(events[..|events| - 1]);
      if CanDo(before, events[|events| - 1]) then Do(before, events[|events| - 1]) else before
  }

  // ----- What no interleaving can break -------------------------------------------------------------

  /** Each (bucket, key, etag) has at most one record. */
  ghost predicate UniqueRecords(w: World) {
    forall i, j | 0 <= i < |w.records| && 0 <= j < |w.records|
                  && w.records[i].identity == w.records[j].identity :: i == j
  }

  /** Record k is the ingested record of this job, and both name the same object. */
  predicate RecordOf(w: World, k: nat, job: JobId) {
    && k < |w.records| && job in w.jobs
    && w.records[k].status.Ingested? && w.records[k].job == Some(job)
    && w.records[k].identity == w.jobs[job].identity
  }

  /** Ingested records and jobs correspond one to one. */
  ghost predicate Bijection(w: World) {
    && (forall k: nat | k < |w.records| && w.records[k].status.Ingested? ::
          w.records[k].job.Some? && RecordOf(w, k, w.records[k].job.value))
    && (forall job | job in w.jobs :: exists k :: RecordOf(w, k, job))
    && (forall i, j, job | RecordOf(w, i, job) && RecordOf(w, j, job) :: i == j)
  }

  /** Each publication is of a different job, and of a different object. */
  ghost predicate PublishedOnce(w: World) {
    && (forall i | 0 <= i < |w.published| :: w.published[i] in w.jobs)
    && (forall i, j | 0 <= i < |w.published| && 0 <= j < |w.published|
                      && w.jobs[w.published[i]].identity == w.jobs[w.published[j]].identity :: i == j)
  }

  /** This handler inserted the job and has not published it yet. */
  predicate ToPublish(h: Handler, job: JobId) {
    h.stage == Publishing(job)
  }

  ghost predicate PublishersOk(r: Race) {
    && (forall h, job | 0 <= h < |r.handlers| && ToPublish(r.handlers[h], job) ::
          job in r.world.jobs && r.world.jobs[job].identity == r.handlers[h].identity && job !in r.world.published)
    && (forall h, g, job | 0 <= h < |r.handlers| && 0 <= g < |r.handlers|
                           && ToPublish(r.handlers[h], job) && ToPublish(r.handlers[g], job) :: h == g)
  }

  ghost predicate Tidy(r: Race) {
    UniqueRecords(r.world) && Bijection(r.world) && PublishedOnce(r.world) && PublishersOk(r)
  }

  lemma JobsOfOneObject(w: World, a: JobId, b: JobId)
    requires UniqueRecords(w) && Bijection(w) && a in w.jobs && b in w.jobs
    requires w.jobs[a].identity == w.jobs[b].identity
    ensures a == b
  {
    var i: nat :| RecordOf(w, i, a);
    var j: nat :| RecordOf(w, j, b);
    assert w.records[i].identity == w.records[j].identity;
  }

  lemma RejectKeepsTables(w: World, identity: Identity, size: nat, problem: string)
    requires UniqueRecords(w) && Bijection(w) && RecordInvalid(w, identity, size, problem).Some?
    ensures var v := RecordInvalid(w, identity, size, problem).value;
            UniqueRecords(v) && Bijection(v)
  {
    var v := RecordInvalid(w, identity, size, problem).value;
    assert forall k | 0 <= k < |w.records| :: v.records[k] == w.records[k];
    forall job | job in v.jobs
      ensures exists k :: RecordOf(v, k, job)
    {
      var k :| RecordOf(w, k, job);
      assert RecordOf(v, k, job);
    }
    forall k, job | RecordOf(v, k, job)
      ensures RecordOf(w, k, job)
    {
      assert k != |w.records|;
    }
  }

  lemma InsertKeepsTables(w: World, identity: Identity, size: nat, job: JobId, now: int)
    requires UniqueRecords(w) && Bijection(w) && InsertJob(w, identity, size, job, now).Some?
    ensures var v := InsertJob(w, identity, size, job, now).value;
            UniqueRecords(v) && Bijection(v)
  {
    var v := InsertJob(w, identity, size, job, now).value;
    assert forall k | 0 <= k < |w.records| :: v.records[k] == w.records[k];
    forall k: nat | k < |v.records| && v.records[k].status.Ingested?
      ensures v.records[k].job.Some? && RecordOf(v, k, v.records[k].job.value)
    {
      if k < |w.records| {
        assert RecordOf(w, k, w.records[k].job.value);
      }
    }
    forall other | other in v.jobs
      ensures exists k :: RecordOf(v, k, other)
    {
      if other == job {
        assert RecordOf(v, |w.records|, job);
      } else {
        var k :| RecordOf(w, k, other);
        assert RecordOf(v, k, other);
      }
    }
    forall i: nat, j: nat, other | RecordOf(v, i, other) && RecordOf(v, j, other)
      ensures i == j
    {
      if i < |w.records| {
        assert RecordOf(w, i, w.records[i].job.value);
      }
      if j < |w.records| {
        assert RecordOf(w, j, w.records[j].job.value);
      }
    }
  }

  /** Marking a job changes its row only. */
  lemma MarkKeepsTables(w: World, job: JobId, raised: Option<string>, now: int)
    requires UniqueRecords(w) && Bijection(w) && PublishedOnce(w)
    ensures var v := Mark(w, job, raised, now);
            && UniqueRecords(v) && Bijection(v) && PublishedOnce(v)
            && v.jobs.Keys == w.jobs.Keys && v.published == w.published
            && forall j | j in w.jobs :: v.jobs[j].identity == w.jobs[j].identity
  {
    var v := Mark(w, job, raised, now);
    assert forall j | j in w.jobs :: v.jobs[j].identity == w.jobs[j].identity;
    assert forall k, j :: RecordOf(v, k, j) <==> RecordOf(w, k, j);
  }

  lemma InsertTidy(r: Race, h: nat, job: JobId, now: int)
    requires Tidy(r) && h < |r.handlers| && r.handlers[h].stage.Inserting?
    ensures Tidy(InsertStep(r, h, job, now))
  {
    var inserted := InsertJob(r.world, r.handlers[h].identity, r.handlers[h].size, job, now);
    if inserted.Some? {
      InsertKeepsTables(r.world, r.handlers[h].identity, r.handlers[h].size, job, now);
      InsertKeepsPublished(r.world, inserted.value, job);
      InsertKeepsPublishers(r, InsertStep(r, h, job, now), h, job);
    } else {
      MoveKeepsPublishers(r, Moved(r, h, Over(DUPLICATE)), h);
    }
  }

  lemma InsertKeepsPublished(w: World, v: World, job: JobId)
    requires PublishedOnce(w) && job !in w.jobs && job in v.jobs && v.published == w.published
    requires v.jobs == w.jobs[job := v.jobs[job]]
    ensures PublishedOnce(v)
  {
  }

  lemma InsertKeepsPublishers(r: Race, r': Race, h: nat, job: JobId)
    requires PublishersOk(r) && h < |r.handlers| && PublishedOnce(r.world)
    requires job !in r.world.jobs && job in r'.world.jobs && r'.world.jobs == r.world.jobs[job := r'.world.jobs[job]]
    requires r'.world.jobs[job].identity == r.handlers[h].identity && r'.world.published == r.world.published
    requires r'.handlers == r.handlers[h := r.handlers[h].(stage := Publishing(job))]
    ensures PublishersOk(r')
  {
    assert forall g | 0 <= g < |r.handlers| && g != h :: r'.handlers[g] == r.handlers[g];
    assert job !in r.world.published;
  }

  /** A handler moving to a stage in which it has nothing to publish. */
  lemma MoveKeepsPublishers(r: Race, r': Race, h: nat)
    requires PublishersOk(r) && h < |r.handlers| && |r'.handlers| == |r.handlers|
    requires r'.handlers == r.handlers[h := r'.handlers[h]] && !r'.handlers[h].stage.Publishing?
    requires r'.world.published == r.world.published && r'.world.jobs.Keys == r.world.jobs.Keys
    requires forall j | j in r.world.jobs :: r'.world.jobs[j].identity == r.world.jobs[j].identity
    ensures PublishersOk(r')
  {
    assert forall g | 0 <= g < |r.handlers| && g != h :: r'.handlers[g] == r.handlers[g];
  }

  lemma SendKeepsPublished(w: World, job: JobId)
    requires UniqueRecords(w) && Bijection(w) && PublishedOnce(w) && job in w.jobs && job !in w.published
    ensures PublishedOnce(Publish(w, job))
  {
    forall i | 0 <= i < |w.published|
      ensures w.jobs[w.published[i]].identity != w.jobs[job].identity
    {
      if w.jobs[w.published[i]].identity == w.jobs[job].identity {
        JobsOfOneObject(w, w.published[i], job);
      }
    }
  }

  lemma SendKeepsPublishers(r: Race, h: nat, raised: Option<string>)
    requires PublishersOk(r) && CanDo(r, Send(h, raised))
    ensures PublishersOk(Do(r, Send(h, raised)))
  {
    var job := r.handlers[h].stage.job;
    var r' := Do(r, Send(h, raised));
    assert ToPublish(r.handlers[h], job);
    assert forall g | 0 <= g < |r.handlers| && g != h :: r'.handlers[g] == r.handlers[g];
  }

  lemma SendTidy(r: Race, h: nat, raised: Option<string>)
    requires Tidy(r) && CanDo(r, Send(h, raised))
    ensures Tidy(Do(r, Send(h, raised)))
  {
    var job := r.handlers[h].stage.job;
    assert ToPublish(r.handlers[h], job);
    SendKeepsPublished(r.world, job);
    SendKeepsPublishers(r, h, raised);
    TablesIgnorePublications(r.world, job);
  }

  lemma TablesIgnorePublications(w: World, job: JobId)
    requires UniqueRecords(w) && Bijection(w)
    ensures UniqueRecords(Publish(w, job)) && Bijection(Publish(w, job))
  {
    assert forall k, j :: RecordOf(Publish(w, job), k, j) <==> RecordOf(w, k, j);
  }

  lemma FinishTidy(r: Race, h: nat, now: int)
    requires Tidy(r) && CanDo(r, Finish(h, now))
    ensures Tidy(Do(r, Finish(h, now)))
  {
    MarkKeepsTables(r.world, r.handlers[h].stage.job, r.handlers[h].stage.raised, now);
    MoveKeepsPublishers(r, Do(r, Finish(h, now)), h);
  }

  lemma RejectTidy(r: Race, h: nat)
    requires Tidy(r) && CanDo(r, Reject(h))
    ensures Tidy(Do(r, Reject(h)))
  {
    var hd := r.handlers[h];
    MoveKeepsPublishers(r, Do(r, Reject(h)), h);
    if RecordInvalid(r.world, hd.identity, hd.size, hd.stage.problem).Some? {
      RejectKeepsTables(r.world, hd.identity, hd.size, hd.stage.problem);
    }
  }

  lemma StepTidy(r: Race, e: RaceEvent)
    requires Tidy(r) && CanDo(r, e)
    ensures Tidy(Do(r, e))
  {
    match e
    case Begin(_, _) =>
    case Look(h, _) => MoveKeepsPublishers(r, Do(r, e), h);
    case Fetch(h, _) => MoveKeepsPublishers(r, Do(r, e), h);
    case Reject(h) => RejectTidy(r, h);
    case Insert(h, job, now) => InsertTidy(r, h, job, now);
    case Send(h, raised) => SendTidy(r, h, raised);
    case Finish(h, now) => FinishTidy(r, h, now);
  }

  /**
   However many ingestors interleave however many polls, with or without the seen-check: at most one
   record per object version, jobs in bijection with ingested records, and no object version
   published twice.
   */
  lemma {:induction false} IngestedOnce(events: seq<RaceEvent>)
    ensures Tidy(After(events))
  {
    if events != [] {
      IngestedOnce(events[..|events| - 1]);
      var before, e := After(events[..|events| - 1]), events[|events| - 1];
      if CanDo(before, e) {
        StepTidy(before, e);
      }
    }
  }

  // ----- One handler alone is the sequential handling -----------------------------------------------

  /** The steps of a new handler, with no other step in between. */
  function Alone(r: Race, identity: Identity, size: nat, e: Surroundings): Race {
    var h := |r.handlers|;
    var looked := Do(Do(r, Begin(identity, size)), Look(h, false));
    if looked.handlers[h].stage.Over? then looked
    else
      var fetched := Do(looked, Fetch(h, e.read));
      match fetched.handlers[h].stage
      case Rejecting(_) => Do(fetched, Reject(h))
      case Inserting =>
        var inserted := Do(fetched, Insert(h, e.job, e.now));
        if inserted.handlers[h].stage.Over? then inserted
        else Do(Do(inserted, Send(h, e.raised)), Finish(h, e.now))
      case _ => fetched
  }

  /** What the poll does with an object is one of the interleavings above, with the same outcome. */
  lemma HandlingIsARun(r: Race, identity: Identity, size: nat, e: Surroundings)
    ensures var alone := Alone(r, identity, size, e);
            var handled := Handle(r.world, identity, size, e, true);
            && alone.world == handled.world
            && |alone.handlers| == |r.handlers| + 1
            && alone.handlers[|r.handlers|].stage == Over(handled.result)
  {
  }

  /** And the row it leaves behind is the one the job protocol's producer leaves in its two steps. */
  lemma HandlingIsAProducer(w: World, identity: Identity, size: nat, e: Surroundings, c: Settings, copies: nat)
    requires e.read.ReadValid? && InsertJob(w, identity, size, e.job, e.now).Some? && copies >= 1
    ensures var sent := if e.raised.Some? then Protocol.PublishRaises(copies) else Protocol.Publish(copies);
            var committed := if e.raised.Some? then Protocol.CommitEnqueueFailed(e.raised.value)
                             else Protocol.CommitEnqueued;
            var s := Protocol.Next(c, e.now, Protocol.NewJob(Protocol.S3, e.now), sent);
            var v := Handle(w, identity, size, e, true).world;
            && Protocol.Enabled(s, committed)
            && e.job in v.jobs && Protocol.Next(c, e.now, s, committed).row == Some(v.jobs[e.job].row)
            && v.published == w.published + [e.job]
  {
    var v := Publish(InsertJob(w, identity, size, e.job, e.now).value, e.job);
    assert Handle(w, identity, size, e, true).world == Mark(v, e.job, e.raised, e.now);
  }
}
