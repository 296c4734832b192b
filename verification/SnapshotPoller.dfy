/**
 The last-good cache of a polled connector: `makePollHandler` in apps/triage-worker/src/poller.ts over the
 expiring key of packages/queue/src/snapshot-cache.ts. Jobs of one connector generation run one at a
 time; times are milliseconds of one clock.
 */
module SnapshotPoller {
  import opened Prelude

  /** `PollFailed` is the marker shown when there is nothing else to show. */
  datatype Snapshot = Reading(content: string) | PollFailed

  datatype Persistence = Stored | Superseded | StoreFailed

  datatype Answer = Answer(snapshots: seq<Snapshot>, errorCount: nat)

  /** Before the read: the connector may be gone or not polled, and finding or reconciling it may throw. */
  datatype Opening = Proceeds | NothingToDo | Broke

  /** One job. `read` is absent when reading threw. */
  datatype Job = Job(
    at: nat, opening: Opening, read: Option<Answer>, persistence: Persistence, publish: Port, getThrows: bool, rewrite: Port)

  datatype Entry = Entry(value: seq<Snapshot>, expires: nat)

  type Cache = Option<Entry>

  /** What the dashboard gets at time `t`. */
  function Visible(cache: Cache, t: nat): seq<Snapshot> {
    if cache.Some? && t < cache.value.expires then cache.value.value else []
  }

  /** The snapshots a job publishes, if its read succeeded and the write took effect. */
  function Published(job: Job): Option<seq<Snapshot>> {
    if job.opening.Proceeds? && job.read.Some? && job.persistence.Stored? && Lands(job.publish)
       && (job.read.value.snapshots != [] || job.read.value.errorCount == 0)
    then Some(job.read.value.snapshots) else None
  }

  /** Reading or publishing failed, so the job turns to what is cached. */
  predicate FallsBack(job: Job) {
    && job.opening.Proceeds?
    && (job.read.None?
        || (job.persistence.Stored?
            && (job.publish.Throws? || (job.read.value.snapshots == [] && job.read.value.errorCount > 0))))
  }

  /** The job fell back on what was cached, and wrote it again. */
  predicate Refreshes(job: Job) {
    FallsBack(job) && !job.getThrows && Lands(job.rewrite)
  }

  function Fallback(cache: Cache, job: Job, ttlMs: nat): Cache {
    var last := Visible(cache, job.at);
    if job.getThrows || !Lands(job.rewrite) then cache
    else Some(Entry(if last != [] then last else [PollFailed], job.at + ttlMs))
  }

  function Handle(cache: Cache, job: Job, ttlMs: nat): Cache {
    if !job.opening.Proceeds? then cache
    else if job.read.None? then Fallback(cache, job, ttlMs)
    else if !job.persistence.Stored? then cache
    else
      var answer := job.read.value;
      if answer.snapshots == [] && answer.errorCount > 0 then Fallback(cache, job, ttlMs)
      else
        var cache' := if Lands(job.publish) then Some(Entry(answer.snapshots, job.at + ttlMs)) else cache;
        if job.publish.Works? then cache' else Fallback(cache', job, ttlMs)
  }

  function Cached(jobs: seq<Job>, ttlMs: nat): Cache {
    if jobs == [] then None else var n := |jobs| - 1; Handle(Cached(jobs[..n], ttlMs), jobs[n], ttlMs)
  }

  // ---------------------------------------------------------------------------------------------
  // What it should hold, read off the list of jobs

  /** Nothing was published after job `k`. */
  ghost predicate LastPublished(jobs: seq<Job>, k: nat) {
    && k < |jobs| && Published(jobs[k]).Some?
    && forall i | k < i < |jobs| :: Published(jobs[i]).None?
  }

  ghost predicate NeverPublished(jobs: seq<Job>) {
    forall i | 0 <= i < |jobs| :: Published(jobs[i]).None?
  }

  ghost predicate RefreshedFrom(jobs: seq<Job>, k: nat) {
    exists i | k <= i < |jobs| :: Refreshes(jobs[i])
  }

  predicate Writes(job: Job) {
    Published(job).Some? || Refreshes(job)
  }

  function LastWrite(jobs: seq<Job>): Option<nat> {
    if jobs == [] then None
    else var n := |jobs| - 1; if Writes(jobs[n]) then Some(jobs[n].at) else LastWrite(jobs[..n])
  }

  /** Jobs run in order and no two writes in a row are as far apart as the time to live. */
  predicate Timely(jobs: seq<Job>, ttlMs: nat) {
    jobs == [] ||
    (var n := |jobs| - 1;
     && Timely(jobs[..n], ttlMs)
     && (forall i | 0 <= i < n :: jobs[i].at <= jobs[n].at)
     && (Writes(jobs[n]) && LastWrite(jobs[..n]).Some? ==> jobs[n].at < LastWrite(jobs[..n]).value + ttlMs))
  }

  lemma {:induction false} ExpiryFollowsWrites(jobs: seq<Job>, ttlMs: nat)
    requires ttlMs > 0
    ensures Cached(jobs, ttlMs).Some? <==> LastWrite(jobs).Some?
    ensures Cached(jobs, ttlMs).Some? ==> Cached(jobs, ttlMs).value.expires == LastWrite(jobs).value + ttlMs
  {
    if jobs != [] {
      ExpiryFollowsWrites(jobs[..|jobs| - 1], ttlMs);
    }
  }

  /** The value stored, expired or not, is the last one published, or else the failure marker. */
  lemma {:induction false} StoresLastPublished(jobs: seq<Job>, ttlMs: nat, k: nat)
    requires ttlMs > 0 && Timely(jobs, ttlMs) && LastPublished(jobs, k)
    ensures Cached(jobs, ttlMs).Some?
    ensures var good := Published(jobs[k]).value;
            Cached(jobs, ttlMs).value.value ==
              if good != [] then good else if RefreshedFrom(jobs, k) then [PollFailed] else []
  {
    var n := |jobs| - 1;
    ExpiryFollowsWrites(jobs[..n], ttlMs);
    if k < n {
      assert LastPublished(jobs[..n], k);
      StoresLastPublished(jobs[..n], ttlMs, k);
      assert RefreshedFrom(jobs, k) <==> RefreshedFrom(jobs[..n], k) || Refreshes(jobs[n]) by {
        RefreshedOneMore(jobs, k);
      }
    }
  }

  lemma RefreshedOneMore(jobs: seq<Job>, k: nat)
    requires jobs != [] && k < |jobs|
    ensures var n := |jobs| - 1;
            RefreshedFrom(jobs, k) <==> (k < n && RefreshedFrom(jobs[..n], k)) || Refreshes(jobs[n])
  {
    var n := |jobs| - 1;
    if k < n && RefreshedFrom(jobs[..n], k) {
      var i :| k <= i < n && Refreshes(jobs[..n][i]);
      assert Refreshes(jobs[i]);
    }
    if RefreshedFrom(jobs, k) && !Refreshes(jobs[n]) {
      var i :| k <= i < |jobs| && Refreshes(jobs[i]);
      assert Refreshes(jobs[..n][i]);
    }
  }

  /**
   While writes are less than the time to live apart, the panel shows the last successful read however
   many polls failed since, and never expires; an empty one gives way to the failure marker.
   */
  lemma ShowsLastGood(jobs: seq<Job>, ttlMs: nat, k: nat, t: nat)
    requires ttlMs > 0 && Timely(jobs, ttlMs) && LastPublished(jobs, k)
    requires LastWrite(jobs).Some? && t < LastWrite(jobs).value + ttlMs
    ensures var good := Published(jobs[k]).value;
            Visible(Cached(jobs, ttlMs), t) ==
              if good != [] then good else if RefreshedFrom(jobs, k) then [PollFailed] else []
  {
    StoresLastPublished(jobs, ttlMs, k);
    ExpiryFollowsWrites(jobs, ttlMs);
  }

  /** Before any read succeeded, the panel shows the failure marker as soon as one failed. */
  lemma {:induction false} ShowsMarkerFirst(jobs: seq<Job>, ttlMs: nat, t: nat)
    requires ttlMs > 0 && NeverPublished(jobs)
    ensures LastWrite(jobs).Some? <==> RefreshedFrom(jobs, 0)
    ensures LastWrite(jobs).Some? && t < LastWrite(jobs).value + ttlMs ==> Visible(Cached(jobs, ttlMs), t) == [PollFailed]
    ensures Cached(jobs, ttlMs).Some? ==> Cached(jobs, ttlMs).value.value == [PollFailed]
  {
    ExpiryFollowsWrites(jobs, ttlMs);
    if jobs != [] {
      var n := |jobs| - 1;
      ShowsMarkerFirst(jobs[..n], ttlMs, t);
      RefreshedOneMore(jobs, 0);
    }
  }

  /** A set that is still visible is replaced only by a successful read. */
  lemma OnlySuccessReplaces(cache: Cache, job: Job, ttlMs: nat)
    requires ttlMs > 0 && Visible(cache, job.at) != [] && Published(job).None?
    ensures Visible(Handle(cache, job, ttlMs), job.at) == Visible(cache, job.at)
    ensures Refreshes(job) ==> Handle(cache, job, ttlMs) == Some(Entry(Visible(cache, job.at), job.at + ttlMs))
  {
  }

  /** A failed read keeps the last good set exactly if it comes before the set expired. */
  lemma ForgetsOnceExpired(good: seq<Snapshot>, written: nat, job: Job, ttlMs: nat)
    requires good != [] && good != [PollFailed] && ttlMs > 0 && Published(job).None? && Refreshes(job)
    ensures Visible(Handle(Some(Entry(good, written + ttlMs)), job, ttlMs), job.at) == good <==> job.at < written + ttlMs
  {
  }

  class Poller {
    const ttlMs: nat
    var cache: Cache

    constructor (ttlMs: nat)
      ensures this.ttlMs == ttlMs && cache == None
    {
      this.ttlMs, cache := ttlMs, None;
    }

    method Set(value: seq<Snapshot>, at: nat, port: Port) returns (threw: bool)
      modifies this
      ensures threw == port.Throws?
      ensures cache == if Lands(port) then Some(Entry(value, at + ttlMs)) else old(cache)
    {
      if Lands(port) {
        cache := Some(Entry(value, at + ttlMs));
      }
      threw := port.Throws?;
    }

    /** `failed`: the error left the handler, so the queue sees a failed job. */
    method HandleJob(job: Job) returns (failed: bool)
      modifies this
      ensures cache == Handle(old(cache), job, ttlMs)
      ensures failed <==> job.opening.Broke? || (FallsBack(job) && (job.getThrows || job.rewrite.Throws?))
    {
      if !job.opening.Proceeds? {
        return job.opening.Broke?;
      }
      if job.read.Some? {
        var answer := job.read.value;
        if !job.persistence.Stored? {
          return false;
        }
        if answer.snapshots != [] || answer.errorCount == 0 {
          var threw := Set(answer.snapshots, job.at, job.publish);
          if !threw {
            return false;
          }
        }
      }
      if job.getThrows {
        return true;
      }
      var last := Visible(cache, job.at);
      failed := Set(if |last| > 0 then last else [PollFailed], job.at, job.rewrite);
    }
  }
}
