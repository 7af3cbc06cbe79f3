/**
 Storage ingestion: turning stored objects into jobs, exactly once per (bucket, key, etag).
 The world is the ingested_objects table, the s3 jobs and the publications; the steps of handling one
 object are shared by the sequential poll and by the machine of racing ingestors.
 */
module Ingestion {
  import opened Common
  import opened Jobs

  datatype Identity = Identity(bucket: string, key: string, etag: string)

  datatype IngestStatus = Ingested | Invalid

  datatype Record = Record(
    identity: Identity,
    sizeBytes: nat,
    status: IngestStatus,
    job: Option<JobId>,
    error: Option<string>)

  /** An s3 job: the object it came from and its row. */
  datatype S3Job = S3Job(identity: Identity, row: Row)

  datatype World = World(records: seq<Record>, jobs: map<JobId, S3Job>, published: seq<JobId>)

  predicate Seen(w: World, identity: Identity) {
    exists k :: 0 <= k < |w.records| && w.records[k].identity == identity
  }

  // ----- The transactions -----------------------------------------------------------------------

  /** Recording an invalid object; the unique constraint makes a second record impossible. */
  function RecordInvalid(w: World, identity: Identity, size: nat, problem: string): Option<World> {
    if Seen(w, identity) then None
    else Some(w.(records := w.records + [Record(identity, size, Invalid, None, Some(Truncate(problem)))]))
  }

  /** Job row and ingestion record in one transaction: on a conflict neither is left behind. */
  function InsertJob(w: World, identity: Identity, size: nat, job: JobId, now: int): Option<World> {
    if Seen(w, identity) || job in w.jobs then None
    else Some(w.(records := w.records + [Record(identity, size, Ingested, Some(job), None)],
                 jobs := w.jobs[job := S3Job(identity, NewRow(now))]))
  }

  function Publish(w: World, job: JobId): World {
    w.(published := w.published + [job])
  }

  function Mark(w: World, job: JobId, raised: Option<string>, now: int): World {
    if job !in w.jobs then w
    else
      var j := w.jobs[job];
      var row := if raised.Some? then EnqueueFailedRow(j.row, now, raised.value) else EnqueuedRow(j.row, now);
      w.(jobs := w.jobs[job := j.(row := row)])
  }

  // ----- Handling one object ------------------------------------------------------------------------

  datatype StoredObject = StoredObject(key: string, etag: string, sizeBytes: nat)

  datatype ReadResult = ReadFails | ReadInvalid(problem: string) | ReadValid

  /** What one handling meets: the read and parse result, the new job id, whether publishing raises, a stop signal. */
  datatype Surroundings = Surroundings(read: ReadResult, job: JobId, raised: Option<string>, now: int, stop: bool)

  datatype PollResult = PollResult(discovered: nat, ingested: nat, skippedDuplicate: nat, invalid: nat, failed: nat) {
    function Plus(other: PollResult): PollResult {
      PollResult(discovered + other.discovered, ingested + other.ingested,
                 skippedDuplicate + other.skippedDuplicate, invalid + other.invalid, failed + other.failed)
    }

    function Handled(): nat {
      ingested + skippedDuplicate + invalid + failed
    }
  }

  const INGESTED: PollResult := PollResult(0, 1, 0, 0, 0)
  const DUPLICATE: PollResult := PollResult(0, 0, 1, 0, 0)
  const INVALID: PollResult := PollResult(0, 0, 0, 1, 0)
  const FAILED: PollResult := PollResult(0, 0, 0, 0, 1)

  datatype Handling = Handling(world: World, result: PollResult)

  /** The world after handling an object, and what the handling counts as; the seen-check is optional here. */
  function Handle(w: World, identity: Identity, size: nat, e: Surroundings, check: bool): Handling {
    if check && Seen(w, identity) then Handling(w, DUPLICATE)
    else
      match e.read
      case ReadFails => Handling(w, FAILED)
      case ReadInvalid(problem) =>
        var recorded := RecordInvalid(w, identity, size, problem);
        Handling(if recorded.Some? then recorded.value else w, INVALID)
      case ReadValid =>
        var inserted := InsertJob(w, identity, size, e.job, e.now);
        if inserted.None? then Handling(w, DUPLICATE)
        else
          var marked := Mark(Publish(inserted.value, e.job), e.job, e.raised, e.now);
          Handling(marked, if e.raised.Some? then FAILED else INGESTED)
  }

  /**
   A new valid object: one ingested record and one job with no attempt made, published once; the job
   is pending and enqueued, or failed if publishing raised.
   */
  lemma ValidObjectAdds(w: World, identity: Identity, size: nat, e: Surroundings, check: bool)
    requires !Seen(w, identity) && e.job !in w.jobs && e.read.ReadValid?
    ensures var v := Handle(w, identity, size, e, check).world;
            && v.records == w.records + [Record(identity, size, Ingested, Some(e.job), None)]
            && v.published == w.published + [e.job]
            && v.jobs.Keys == w.jobs.Keys + {e.job} && (forall j | j in w.jobs :: v.jobs[j] == w.jobs[j])
            && v.jobs[e.job].identity == identity
            && v.jobs[e.job].row ==
               match e.raised
               case None => Row(Pending, 0, None, None, None, None, None, None, None, Some(e.now), None, None, e.now)
               case Some(error) => Row(Failed, 0, None, Some(EnqueueFailed), Some(Truncate(error)),
                                       None, None, None, None, None, None, Some(e.now), e.now)
    ensures Handle(w, identity, size, e, check).result ==
            if e.raised == None then PollResult(0, 1, 0, 0, 0) else PollResult(0, 0, 0, 0, 1)
  {
  }

  /** A new invalid object: one record that says why, and no job. */
  lemma InvalidObjectAdds(w: World, identity: Identity, size: nat, e: Surroundings, check: bool)
    requires !Seen(w, identity) && e.read.ReadInvalid?
    ensures Handle(w, identity, size, e, check) ==
            Handling(World(w.records + [Record(identity, size, Invalid, None, Some(Truncate(e.read.problem)))],
                           w.jobs, w.published),
                     PollResult(0, 0, 0, 1, 0))
  {
  }

  /** An object that was seen, or cannot be read, adds nothing; only the latter may be looked at again. */
  lemma OtherObjectsAddNothing(w: World, identity: Identity, size: nat, e: Surroundings)
    requires Seen(w, identity) || e.read.ReadFails?
    ensures Handle(w, identity, size, e, true) ==
            Handling(w, if Seen(w, identity) then PollResult(0, 0, 1, 0, 0) else PollResult(0, 0, 0, 0, 1))
  {
  }

  /**
   The seen-check is only an optimisation: whatever the store, the read and the parse say, handling
   an object with and without it leaves the same records, jobs and publications.
   */
  lemma CheckIsOnlyAnOptimisation(w: World, identity: Identity, size: nat, e: Surroundings)
    ensures Handle(w, identity, size, e, true).world == Handle(w, identity, size, e, false).world
    ensures !Seen(w, identity) ==> Handle(w, identity, size, e, true) == Handle(w, identity, size, e, false)
  {
  }

  // ----- One poll, in place ---------------------------------------------------------------------------

  class Database {
    var records: seq<Record>
    var jobs: map<JobId, S3Job>

    constructor ()
      ensures records == [] && jobs == map[]
    {
      records, jobs := [], map[];
    }

    method ObjectAlreadySeen(identity: Identity) returns (seen: bool)
      ensures seen <==> exists k :: 0 <= k < |records| && records[k].identity == identity
    {
      seen := false;
      for k := 0 to |records|
        invariant !seen ==> forall i | 0 <= i < k :: records[i].identity != identity
        invariant seen ==> exists i :: 0 <= i < |records| && records[i].identity == identity
      {
        if records[k].identity == identity {
          seen := true;
        }
      }
    }
  }

  class Publisher {
    var published: seq<JobId>

    constructor ()
      ensures published == []
    {
      published := [];
    }
  }

  class Ingestor {
    const bucket: string
    const db: Database
    const publisher: Publisher
    var stop: bool

    constructor (bucket: string, db: Database, publisher: Publisher)
      ensures this.bucket == bucket && this.db == db && this.publisher == publisher && !stop
    {
      this.bucket := bucket;
      this.db := db;
      this.publisher := publisher;
      stop := false;
    }

    ghost function TheWorld(): World
      reads db, publisher
    {
      World(db.records, db.jobs, publisher.published)
    }

    function IdentityOf(stored: StoredObject): Identity {
      Identity(bucket, stored.key, stored.etag)
    }

    method HandleObject(stored: StoredObject, e: Surroundings) returns (result: PollResult)
      modifies db, publisher
      ensures Handling(TheWorld(), result) == HandleOne(old(TheWorld()), bucket, stored, e, true)
    {
      var seen := db.ObjectAlreadySeen(IdentityOf(stored));
      if seen {
        return DUPLICATE;
      }
      match e.read
      case ReadFails =>
        return FAILED;
      case ReadInvalid(problem) =>
        RecordInvalidObject(stored, problem);
        return INVALID;
      case ReadValid =>
        result := CreateJobFor(stored, e);
    }

    method RecordInvalidObject(stored: StoredObject, problem: string)
      modifies db
      ensures var recorded := RecordInvalid(old(TheWorld()), IdentityOf(stored), stored.sizeBytes, problem);
              TheWorld() == if recorded.Some? then recorded.value else old(TheWorld())
    {
      var conflict := db.ObjectAlreadySeen(IdentityOf(stored));
      if !conflict {
        var error := Some(Truncate(problem));
        db.records := db.records + [Record(IdentityOf(stored), stored.sizeBytes, Invalid, None, error)];
      }
    }

    /** The insert is rolled back as a whole when the record violates the unique constraint. */
    method CreateJobFor(stored: StoredObject, e: Surroundings) returns (result: PollResult)
      modifies db, publisher
      ensures Handling(TheWorld(), result) ==
              Handle(old(TheWorld()), IdentityOf(stored), stored.sizeBytes, e.(read := ReadValid), false)
    {
      if e.job in db.jobs {
        return DUPLICATE;
      }
      var jobsBefore := db.jobs;
      db.jobs := db.jobs[e.job := S3Job(IdentityOf(stored), NewRow(e.now))];
      var conflict := db.ObjectAlreadySeen(IdentityOf(stored));
      if conflict {
        db.jobs := jobsBefore;
        return DUPLICATE;
      }
      db.records := db.records + [Record(IdentityOf(stored), stored.sizeBytes, Ingested, Some(e.job), None)];
      publisher.published := publisher.published + [e.job];
      var job := db.jobs[e.job];
      if e.raised.Some? {
        db.jobs := db.jobs[e.job := job.(row := EnqueueFailedRow(job.row, e.now, e.raised.value))];
        return FAILED;
      }
      db.jobs := db.jobs[e.job := job.(row := EnqueuedRow(job.row, e.now))];
      return INGESTED;
    }

    /** One pass over a listing; env[i].stop says that a stop was requested before object i is looked at. */
    method PollOnce(objects: seq<StoredObject>, env: seq<Surroundings>) returns (result: PollResult)
      requires |env| == |objects|
      modifies this`stop, db, publisher
      ensures PollEnd(TheWorld(), result, stop) == PollAll(old(TheWorld()), bucket, objects, env, old(stop), true)
    {
      result := PollResult(|objects|, 0, 0, 0, 0);
      var i := 0;
      ghost var end := PollAll(TheWorld(), bucket, objects, env, stop, true);
      while i < |objects|
        invariant i <= |objects|
        invariant end == Poll(TheWorld(), bucket, objects, env, stop, true, i, result)
      {
        if env[i].stop {
          stop := true;
        }
        if stop {
          return;
        }
        var one := HandleObject(objects[i], env[i]);
        result := result.Plus(one);
        i := i + 1;
      }
    }
  }

  datatype PollEnd = PollEnd(world: World, result: PollResult, stopped: bool)

  function HandleOne(w: World, bucket: string, stored: StoredObject, e: Surroundings, check: bool): Handling {
    Handle(w, Identity(bucket, stored.key, stored.etag), stored.sizeBytes, e, check)
  }

  /** How a poll ends that looks at object i next and has counted `sofar`. */
  function Poll(w: World, bucket: string, objects: seq<StoredObject>, env: seq<Surroundings>, stop: bool, check: bool,
                i: nat, sofar: PollResult): PollEnd
    requires |env| == |objects| && i <= |objects|
    decreases |objects| - i
  {
    if i == |objects| then PollEnd(w, sofar, stop)
    else if stop || env[i].stop then PollEnd(w, sofar, true)
    else
      var one := HandleOne(w, bucket, objects[i], env[i], check);
      Poll(one.world, bucket, objects, env, false, check, i + 1, sofar.Plus(one.result))
  }

  /** A whole poll, which starts by counting the listing as discovered. */
  function PollAll(w: World, bucket: string, objects: seq<StoredObject>, env: seq<Surroundings>, stop: bool,
                   check: bool): PollEnd
    requires |env| == |objects|
  {
    Poll(w, bucket, objects, env, stop, check, 0, PollResult(|objects|, 0, 0, 0, 0))
  }

  /** No stop was requested, before the poll or during it. */
  ghost predicate NoStop(env: seq<Surroundings>, stop: bool) {
    !stop && forall i | 0 <= i < |env| :: !env[i].stop
  }

  /** How many objects the poll still looks at before it notices a stop. */
  function HandledCount(env: seq<Surroundings>, stop: bool, i: nat): (n: nat)
    requires i <= |env|
    ensures n <= |env| - i
    decreases |env| - i
  {
    if i == |env| || stop || env[i].stop then 0 else 1 + HandledCount(env, false, i + 1)
  }

  /** Every handled object is counted under exactly one of the four outcomes. */
  lemma OneOutcomeEach(w: World, bucket: string, stored: StoredObject, e: Surroundings, check: bool)
    ensures HandleOne(w, bucket, stored, e, check).result.discovered == 0
    ensures HandleOne(w, bucket, stored, e, check).result.Handled() == 1
  {
  }

  lemma {:induction false} AccountingFrom(w: World, bucket: string, objects: seq<StoredObject>, env: seq<Surroundings>,
                                          stop: bool, check: bool, i: nat, sofar: PollResult)
    requires |env| == |objects| && i <= |objects|
    ensures var r := Poll(w, bucket, objects, env, stop, check, i, sofar).result;
            r.Handled() == sofar.Handled() + HandledCount(env, stop, i) && r.discovered == sofar.discovered
    ensures NoStop(env, stop) ==> HandledCount(env, stop, i) == |objects| - i
    decreases |objects| - i
  {
    if i < |objects| && !stop && !env[i].stop {
      var one := HandleOne(w, bucket, objects[i], env[i], check);
      OneOutcomeEach(w, bucket, objects[i], env[i], check);
      AccountingFrom(one.world, bucket, objects, env, false, check, i + 1, sofar.Plus(one.result));
    }
  }

  /** The four outcome counters add up to the objects handled: all discovered ones unless stopped. */
  lemma PollAccounting(w: World, bucket: string, objects: seq<StoredObject>, env: seq<Surroundings>, stop: bool,
                       check: bool)
    requires |env| == |objects|
    ensures var r := PollAll(w, bucket, objects, env, stop, check).result;
            && r.Handled() == HandledCount(env, stop, 0) <= r.discovered == |objects|
            && (NoStop(env, stop) ==> r.Handled() == r.discovered)
  {
    AccountingFrom(w, bucket, objects, env, stop, check, 0, PollResult(|objects|, 0, 0, 0, 0));
  }

  /** A whole poll leaves the same records, jobs and publications with and without the seen-check. */
  lemma {:induction false} PollNeedsNoCheck(w: World, bucket: string, objects: seq<StoredObject>,
                                            env: seq<Surroundings>, stop: bool, i: nat,
                                            sofar: PollResult, sofar': PollResult)
    requires |env| == |objects| && i <= |objects|
    ensures var (checked, unchecked) := (Poll(w, bucket, objects, env, stop, true, i, sofar),
                                         Poll(w, bucket, objects, env, stop, false, i, sofar'));
            checked.world == unchecked.world && checked.stopped == unchecked.stopped
    decreases |objects| - i
  {
    if i < |objects| && !stop && !env[i].stop {
      var one, other := HandleOne(w, bucket, objects[i], env[i], true), HandleOne(w, bucket, objects[i], env[i], false);
      CheckIsOnlyAnOptimisation(w, Identity(bucket, objects[i].key, objects[i].etag), objects[i].sizeBytes, env[i]);
      PollNeedsNoCheck(one.world, bucket, objects, env, false, i + 1,
                       sofar.Plus(one.result), sofar'.Plus(other.result));
    }
  }

  /**
   From world w to world v with counters going from r to q: as many jobs as publications were added,
   one record per job and per invalid object, and every new job was counted ingested or failed.
   */
  predicate Tallies(w: World, v: World, r: PollResult, q: PollResult) {
    && |v.jobs| - |w.jobs| == |v.published| - |w.published|
    && |v.records| - |w.records| == |v.jobs| - |w.jobs| + q.invalid - r.invalid
    && q.ingested - r.ingested <= |v.jobs| - |w.jobs| <= q.ingested - r.ingested + q.failed - r.failed
  }

  lemma HandleTallies(w: World, identity: Identity, size: nat, e: Surroundings, r: PollResult)
    requires e.job !in w.jobs
    ensures var one := Handle(w, identity, size, e, true);
            && Tallies(w, one.world, r, r.Plus(one.result))
            && (e.raised.None? ==> |one.world.jobs| - |w.jobs| == one.result.ingested)
            && one.world.jobs.Keys <= w.jobs.Keys + {e.job}
  {
    var v := Handle(w, identity, size, e, true).world;
    if e.job in v.jobs {
      assert v.jobs.Keys == w.jobs.Keys + {e.job};
      assert |v.jobs| == |v.jobs.Keys| && |w.jobs| == |w.jobs.Keys|;
    } else {
      assert v.jobs == w.jobs;
    }
  }

  /** No publication raises. */
  ghost predicate NoneRaised(env: seq<Surroundings>) {
    forall i | 0 <= i < |env| :: env[i].raised.None?
  }

  lemma TalliesAdd(w: World, v: World, u: World, p: PollResult, q: PollResult, r: PollResult)
    requires Tallies(w, v, p, q) && Tallies(v, u, q, r)
    ensures Tallies(w, u, p, r)
  {
  }

  lemma FreshTail(w: World, v: World, env: seq<Surroundings>, i: nat)
    requires FreshFrom(w, env, i) && i < |env| && v.jobs.Keys <= w.jobs.Keys + {env[i].job}
    ensures FreshFrom(v, env, i + 1)
  {
    forall k | i < k < |env|
      ensures env[k].job !in v.jobs
    {
      assert env[k].job !in w.jobs && env[k].job != env[i].job;
    }
  }

  /**
   Conservation over a whole poll, stopped or not: new jobs, new records and publications are exactly
   what the counters say. Without a publishing failure the jobs are exactly those counted ingested.
   */
  lemma {:induction false} PollConservation(w: World, bucket: string, objects: seq<StoredObject>,
                                            env: seq<Surroundings>, stop: bool, i: nat, sofar: PollResult)
    requires |env| == |objects| && i <= |objects| && FreshFrom(w, env, i)
    ensures var end := Poll(w, bucket, objects, env, stop, true, i, sofar);
            && Tallies(w, end.world, sofar, end.result)
            && (NoneRaised(env) ==> |end.world.jobs| - |w.jobs| == end.result.ingested - sofar.ingested)
    decreases |objects| - i
  {
    if i < |objects| && !stop && !env[i].stop {
      var one := HandleOne(w, bucket, objects[i], env[i], true);
      HandleTallies(w, Identity(bucket, objects[i].key, objects[i].etag), objects[i].sizeBytes, env[i], sofar);
      FreshTail(w, one.world, env, i);
      PollConservation(one.world, bucket, objects, env, false, i + 1, sofar.Plus(one.result));
      var end := Poll(one.world, bucket, objects, env, false, true, i + 1, sofar.Plus(one.result));
      TalliesAdd(w, one.world, end.world, sofar, sofar.Plus(one.result), end.result);
    }
  }

  /** A poll that is stopped before object k is the poll of the objects before k, and knows it was stopped. */
  lemma {:induction false} StoppedPollIsPrefix(w: World, bucket: string, objects: seq<StoredObject>,
                                               env: seq<Surroundings>, check: bool, i: nat, k: nat, sofar: PollResult)
    requires |env| == |objects| && i <= k < |objects| && env[k].stop && forall j | i <= j < k :: !env[j].stop
    ensures var prefix := Poll(w, bucket, objects[..k], env[..k], false, check, i, sofar);
            Poll(w, bucket, objects, env, false, check, i, sofar) == PollEnd(prefix.world, prefix.result, true)
    decreases k - i
  {
    if i < k {
      var one := HandleOne(w, bucket, objects[i], env[i], check);
      StoppedPollIsPrefix(one.world, bucket, objects, env, check, i + 1, k, sofar.Plus(one.result));
    }
  }

  // ----- A second poll of the same listing --------------------------------------------------------

  /** From object i on, new job ids are new: not in use, and no two alike. */
  ghost predicate FreshFrom(w: World, env: seq<Surroundings>, i: nat) {
    && (forall k | i <= k < |env| :: env[k].job !in w.jobs)
    && (forall k, l | i <= k < l < |env| :: env[k].job != env[l].job)
  }

  ghost predicate NoReadFails(env: seq<Surroundings>) {
    forall i | 0 <= i < |env| :: !env[i].read.ReadFails?
  }

  ghost predicate AllSeen(w: World, bucket: string, objects: seq<StoredObject>) {
    forall i | 0 <= i < |objects| :: Seen(w, Identity(bucket, objects[i].key, objects[i].etag))
  }

  lemma SeenStays(w: World, v: World, identity: Identity)
    requires Seen(w, identity) && w.records <= v.records
    ensures Seen(v, identity)
  {
    var k :| 0 <= k < |w.records| && w.records[k].identity == identity;
    assert v.records[k].identity == identity;
  }

  lemma HandleRecords(w: World, identity: Identity, size: nat, e: Surroundings)
    requires !e.read.ReadFails? && e.job !in w.jobs
    ensures var v := Handle(w, identity, size, e, true).world;
            Seen(v, identity) && w.records <= v.records && v.jobs.Keys <= w.jobs.Keys + {e.job}
  {
    var v := Handle(w, identity, size, e, true).world;
    if !Seen(w, identity) {
      assert v.records[|w.records|].identity == identity;
    }
  }

  lemma {:induction false} PollRecordsAll(w: World, bucket: string, objects: seq<StoredObject>, env: seq<Surroundings>,
                                          i: nat, sofar: PollResult)
    requires |env| == |objects| && i <= |objects| && NoStop(env, false) && NoReadFails(env)
    requires FreshFrom(w, env, i)
    ensures var v := Poll(w, bucket, objects, env, false, true, i, sofar).world;
            && w.records <= v.records
            && forall k | i <= k < |objects| :: Seen(v, Identity(bucket, objects[k].key, objects[k].etag))
    decreases |objects| - i
  {
    if i < |objects| {
      var id := Identity(bucket, objects[i].key, objects[i].etag);
      var one := HandleOne(w, bucket, objects[i], env[i], true);
      HandleRecords(w, id, objects[i].sizeBytes, env[i]);
      PollRecordsAll(one.world, bucket, objects, env, i + 1, sofar.Plus(one.result));
      SeenStays(one.world, Poll(w, bucket, objects, env, false, true, i, sofar).world, id);
    }
  }

  lemma {:induction false} PollOfSeenIsIdle(w: World, bucket: string, objects: seq<StoredObject>,
                                            env: seq<Surroundings>, i: nat, sofar: PollResult)
    requires |env| == |objects| && i <= |objects| && NoStop(env, false) && AllSeen(w, bucket, objects)
    ensures Poll(w, bucket, objects, env, false, true, i, sofar) ==
            PollEnd(w, sofar.(skippedDuplicate := sofar.skippedDuplicate + |objects| - i), false)
    decreases |objects| - i
  {
    if i < |objects| {
      assert Seen(w, Identity(bucket, objects[i].key, objects[i].etag));
      PollOfSeenIsIdle(w, bucket, objects, env, i + 1, sofar.Plus(DUPLICATE));
    }
  }

  /**
   After a poll that was not stopped and met no read failure, a second poll of the same listing,
   whatever it would read or publish, changes nothing and counts every object as a duplicate.
   */
  lemma SecondPollIsIdle(w: World, bucket: string, objects: seq<StoredObject>,
                         first: seq<Surroundings>, second: seq<Surroundings>)
    requires |first| == |objects| == |second|
    requires NoStop(first, false) && NoReadFails(first) && FreshFrom(w, first, 0) && NoStop(second, false)
    ensures var v := PollAll(w, bucket, objects, first, false, true).world;
            PollAll(v, bucket, objects, second, false, true) ==
            PollEnd(v, PollResult(|objects|, 0, |objects|, 0, 0), false)
  {
    PollRecordsAll(w, bucket, objects, first, 0, PollResult(|objects|, 0, 0, 0, 0));
    PollOfSeenIsIdle(PollAll(w, bucket, objects, first, false, true).world, bucket, objects, second, 0,
                     PollResult(|objects|, 0, 0, 0, 0));
  }
}
