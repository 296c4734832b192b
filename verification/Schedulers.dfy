/**
 The fan-out of a won window: `PollScheduler.tick` in apps/triage-worker/src/poller.ts and
 `SloScheduler.tick` in apps/triage-worker/src/slo-scheduler.ts.
 */
module Schedulers {
  import opened Prelude
  import opened WindowGuard

  datatype JobType = Poll | TopologyDiscover

  datatype Connector = Connector(id: string, pollingNone: bool, readsEpisode: bool, hasTopology: bool)

  datatype Tenant = Tenant(id: string, items: seq<string>)

  datatype Job = Job(tenant: string, item: string)

  predicate Eligible(jobType: JobType, c: Connector) {
    if jobType.TopologyDiscover? then c.hasTopology else !c.pollingNone || c.readsEpisode
  }

  /** The connectors of a tenant that get a job. */
  function Items(jobType: JobType, connectors: seq<Connector>): seq<string> {
    if connectors == [] then []
    else
      var n := |connectors| - 1;
      Items(jobType, connectors[..n]) + (if Eligible(jobType, connectors[n]) then [connectors[n].id] else [])
  }

  function JobsOf(tenant: Tenant, n: nat): seq<Job>
    requires n <= |tenant.items|
  {
    if n == 0 then [] else JobsOf(tenant, n - 1) + [Job(tenant.id, tenant.items[n - 1])]
  }

  function Jobs(tenants: seq<Tenant>): seq<Job> {
    if tenants == [] then []
    else
      var n := |tenants| - 1;
      Jobs(tenants[..n]) + JobsOf(tenants[n], |tenants[n].items|)
  }

  // ---------------------------------------------------------------------------------------------
  // One job per eligible item

  /** Tenant ids are unique, and so are the items of a tenant. */
  predicate Proper(tenants: seq<Tenant>) {
    && (forall i, j | 0 <= i < j < |tenants| :: tenants[i].id != tenants[j].id)
    && (forall i | 0 <= i < |tenants| :: Distinct(tenants[i].items))
  }

  /** The item is one of the tenant's. */
  ghost predicate Wants(tenants: seq<Tenant>, job: Job) {
    exists i | 0 <= i < |tenants| :: tenants[i].id == job.tenant && job.item in tenants[i].items
  }

  /**
   Which connectors a scheduler is to serve: one that cannot be polled is still due a poll job if alert
   episodes are read through it, and discovery is for those that describe a topology.
   */
  predicate Serves(jobType: JobType, c: Connector) {
    match jobType
    case Poll => c.pollingNone ==> c.readsEpisode
    case TopologyDiscover => c.hasTopology
  }

  /** The items of a tenant are exactly the ids of the connectors to serve, each once. */
  lemma ItemsAreEligible(jobType: JobType, connectors: seq<Connector>)
    requires forall i, j | 0 <= i < j < |connectors| :: connectors[i].id != connectors[j].id
    ensures Distinct(Items(jobType, connectors))
    ensures forall id :: id in Items(jobType, connectors) <==>
              exists i | 0 <= i < |connectors| :: connectors[i].id == id && Serves(jobType, connectors[i])
  {
    ItemsOfEligible(jobType, connectors);
    forall c: Connector ensures Eligible(jobType, c) <==> Serves(jobType, c) {
    }
    hide Eligible, Serves;
  }

  lemma {:induction false} ItemsOfEligible(jobType: JobType, connectors: seq<Connector>)
    requires forall i, j | 0 <= i < j < |connectors| :: connectors[i].id != connectors[j].id
    ensures Distinct(Items(jobType, connectors))
    ensures forall id :: id in Items(jobType, connectors) <==>
              exists i | 0 <= i < |connectors| :: connectors[i].id == id && Eligible(jobType, connectors[i])
  {
    if connectors != [] {
      var n := |connectors| - 1;
      ItemsOfEligible(jobType, connectors[..n]);
      hide Eligible;
      var before := Items(jobType, connectors[..n]);
      assert forall i | 0 <= i < n :: connectors[..n][i].id != connectors[n].id;
      assert connectors[n].id !in before;
      forall id | id in before
        ensures exists i | 0 <= i < n :: connectors[i].id == id && Eligible(jobType, connectors[i])
      {
        var i :| 0 <= i < n && connectors[..n][i].id == id && Eligible(jobType, connectors[..n][i]);
        assert connectors[i].id == id;
      }
      forall i | 0 <= i < |connectors| && Eligible(jobType, connectors[i])
        ensures connectors[i].id in Items(jobType, connectors)
      {
        if i < n {
          assert connectors[..n][i] == connectors[i];
        }
      }
    }
  }

  lemma {:induction false} JobsOfOne(tenant: Tenant, n: nat)
    requires n <= |tenant.items| && Distinct(tenant.items)
    ensures |JobsOf(tenant, n)| == n
    ensures forall i | 0 <= i < n :: JobsOf(tenant, n)[i] == Job(tenant.id, tenant.items[i])
    ensures Distinct(JobsOf(tenant, n))
  {
    if n > 0 {
      JobsOfOne(tenant, n - 1);
    }
  }

  /** Every wanted item gets exactly one job, and nothing else gets one. */
  lemma {:induction false} OneJobEach(tenants: seq<Tenant>)
    requires Proper(tenants)
    ensures Distinct(Jobs(tenants))
    ensures forall job :: job in Jobs(tenants) <==> Wants(tenants, job)
  {
    if tenants != [] {
      var n := |tenants| - 1;
      var before, mine := Jobs(tenants[..n]), JobsOf(tenants[n], |tenants[n].items|);
      OneJobEach(tenants[..n]);
      JobsOfOne(tenants[n], |tenants[n].items|);
      forall job ensures job in Jobs(tenants) <==> Wants(tenants, job) {
        WantsOneMore(tenants, job);
        assert job in mine <==> job.tenant == tenants[n].id && job.item in tenants[n].items by {
          if job.tenant == tenants[n].id && job.item in tenants[n].items {
            var i :| 0 <= i < |tenants[n].items| && tenants[n].items[i] == job.item;
            assert mine[i] == job;
          }
        }
      }
      forall i, j | 0 <= i < |before| && 0 <= j < |mine| ensures before[i] != mine[j] {
        assert before[i] in before;
        assert mine[j].tenant == tenants[n].id;
        EarlierTenant(tenants, before[i]);
      }
    }
  }

  lemma WantsOneMore(tenants: seq<Tenant>, job: Job)
    requires tenants != []
    ensures var n := |tenants| - 1;
            Wants(tenants, job) <==>
              Wants(tenants[..n], job) || (tenants[n].id == job.tenant && job.item in tenants[n].items)
  {
    var n := |tenants| - 1;
    if Wants(tenants[..n], job) {
      var i :| 0 <= i < n && tenants[..n][i].id == job.tenant && job.item in tenants[..n][i].items;
      assert tenants[i].id == job.tenant;
    }
    if Wants(tenants, job) {
      var i :| 0 <= i < |tenants| && tenants[i].id == job.tenant && job.item in tenants[i].items;
      if i < n {
        assert tenants[..n][i].id == job.tenant;
      }
    }
  }

  lemma EarlierTenant(tenants: seq<Tenant>, job: Job)
    requires tenants != [] && Proper(tenants) && Wants(tenants[..|tenants| - 1], job)
    ensures job.tenant != tenants[|tenants| - 1].id
  {
    var n := |tenants| - 1;
    var i :| 0 <= i < n && tenants[..n][i].id == job.tenant && job.item in tenants[..n][i].items;
    assert tenants[i].id == job.tenant;
  }

  // ---------------------------------------------------------------------------------------------
  // All replicas, all windows

  /** A tick of some replica: its guard call, the tenants it would find, and how many jobs it gets out. */
  datatype Tick = Tick(call: Call, tenants: seq<Tenant>, dispatched: nat)

  datatype Dispatch = Dispatch(window: nat, job: Job)

  function CallsOf(ticks: seq<Tick>): seq<Call> {
    seq(|ticks|, i requires 0 <= i < |ticks| => ticks[i].call)
  }

  /** What tick `i` dispatches: nothing unless it won, and a prefix if an error cut it short. */
  function Dispatched(ticks: seq<Tick>, intervalMs: nat, ttlSec: nat, i: nat): seq<Job>
    requires intervalMs > 0 && i < |ticks|
  {
    var jobs := Jobs(ticks[i].tenants);
    if !Won(CallsOf(ticks), intervalMs, ttlSec, i) then []
    else if ticks[i].dispatched < |jobs| then jobs[..ticks[i].dispatched] else jobs
  }

  /** Over all replicas and any number of ticks, no item gets two jobs in one window. */
  lemma OneJobPerWindow(ticks: seq<Tick>, intervalMs: nat, ttlSec: nat, i: nat, j: nat, k: nat, l: nat)
    requires intervalMs > 0 && ttlSec * 1000 >= intervalMs && i < |ticks| && j < |ticks|
    requires Ordered(CallsOf(ticks)) && InWindow(CallsOf(ticks), intervalMs)
    requires Proper(ticks[i].tenants) && Proper(ticks[j].tenants)
    requires k < |Dispatched(ticks, intervalMs, ttlSec, i)| && l < |Dispatched(ticks, intervalMs, ttlSec, j)|
    requires Window(ticks[i].call.stamp, intervalMs) == Window(ticks[j].call.stamp, intervalMs)
    ensures i == j
    ensures Dispatched(ticks, intervalMs, ttlSec, i)[k] == Dispatched(ticks, intervalMs, ttlSec, j)[l] ==> k == l
  {
    OneJobEach(ticks[i].tenants);
    TtlMustCoverInterval(intervalMs, ttlSec);
    var calls := CallsOf(ticks);
    assert Won(calls, intervalMs, ttlSec, i) && Won(calls, intervalMs, ttlSec, j);
    assert calls[i] == ticks[i].call && calls[j] == ticks[j].call;
  }

  /** The winner of a window serves exactly the items it finds, unless an error cuts its fan-out short. */
  lemma WinnerServesAll(ticks: seq<Tick>, intervalMs: nat, ttlSec: nat, i: nat, job: Job)
    requires intervalMs > 0 && i < |ticks| && Proper(ticks[i].tenants) && Won(CallsOf(ticks), intervalMs, ttlSec, i)
    ensures job in Dispatched(ticks, intervalMs, ttlSec, i) ==> Wants(ticks[i].tenants, job)
    ensures ticks[i].dispatched >= |Jobs(ticks[i].tenants)| ==>
              (job in Dispatched(ticks, intervalMs, ttlSec, i) <==> Wants(ticks[i].tenants, job))
  {
    OneJobEach(ticks[i].tenants);
  }

  // ---------------------------------------------------------------------------------------------
  // The ticks

  lemma {:induction false} ItemsPrefix(jobType: JobType, connectors: seq<Connector>, n: nat)
    requires n <= |connectors|
    ensures Items(jobType, connectors[..n]) <= Items(jobType, connectors)
  {
    if n < |connectors| {
      assert connectors[..|connectors| - 1][..n] == connectors[..n];
      ItemsPrefix(jobType, connectors[..|connectors| - 1], n);
    } else {
      assert connectors[..n] == connectors;
    }
  }

  lemma {:induction false} JobsOfPrefix(t: Tenant, u: Tenant, n: nat)
    requires t.id == u.id && t.items <= u.items && n <= |t.items|
    ensures JobsOf(t, n) == JobsOf(u, n) && |JobsOf(t, n)| == n
  {
    if n > 0 {
      JobsOfPrefix(t, u, n - 1);
    }
  }

  lemma {:induction false} JobsOfTake(t: Tenant, n: nat, m: nat)
    requires n <= m <= |t.items|
    ensures |JobsOf(t, m)| == m && JobsOf(t, m)[..n] == JobsOf(t, n)
  {
    JobsOfPrefix(t, t, m);
    JobsOfPrefix(t, t, n);
    if n < m {
      JobsOfTake(t, n, m - 1);
      assert JobsOf(t, m)[..n] == JobsOf(t, m - 1)[..n];
    }
  }

  lemma {:induction false} JobsPrefix(tenants: seq<Tenant>, i: nat)
    requires i <= |tenants|
    ensures Jobs(tenants[..i]) <= Jobs(tenants)
  {
    if i < |tenants| {
      assert tenants[..|tenants| - 1][..i] == tenants[..i];
      JobsPrefix(tenants[..|tenants| - 1], i);
    } else {
      assert tenants[..i] == tenants;
    }
  }

  /** The jobs of the first `i` tenants and `n` more. */
  lemma JobsTake(tenants: seq<Tenant>, i: nat, n: nat)
    requires i < |tenants| && n <= |tenants[i].items|
    ensures Jobs(tenants[..i + 1]) == Jobs(tenants[..i]) + JobsOf(tenants[i], |tenants[i].items|)
    ensures |JobsOf(tenants[i], |tenants[i].items|)| == |tenants[i].items|
    ensures Jobs(tenants[..i]) + JobsOf(tenants[i], n) <= Jobs(tenants)
    ensures |JobsOf(tenants[i], n)| == n
  {
    assert tenants[..i + 1][..i] == tenants[..i];
    JobsOfTake(tenants[i], n, |tenants[i].items|);
    JobsOfTake(tenants[i], n, n);
    JobsPrefix(tenants, i + 1);
  }

  /** What a queue that takes `accepts` jobs and then throws has of them. */
  function Taken(jobs: seq<Job>, accepts: nat): seq<Job> {
    if accepts < |jobs| then jobs[..accepts] else jobs
  }

  lemma TakenAt(tenants: seq<Tenant>, i: nat, n: nat)
    requires i < |tenants| && n < |tenants[i].items|
    ensures var accepts := |Jobs(tenants[..i])| + n;
            accepts < |Jobs(tenants)| && Taken(Jobs(tenants), accepts) == Jobs(tenants[..i]) + JobsOf(tenants[i], n)
  {
    JobsTake(tenants, i, n);
    JobsTake(tenants, i, n + 1);
    var taken, jobs := Jobs(tenants[..i]) + JobsOf(tenants[i], n), Jobs(tenants);
    assert taken == jobs[..|taken|];
  }

  lemma AllOfPrefix(tenants: seq<Tenant>, n: nat, accepts: nat)
    requires n == |tenants| && |Jobs(tenants[..n])| <= accepts
    ensures Taken(Jobs(tenants), accepts) == Jobs(tenants) == Jobs(tenants[..n])
  {
    assert tenants[..n] == tenants;
  }

  /** How many of the reads succeed before one throws. */
  function Reach<T>(answers: seq<Option<T>>): (k: nat)
    ensures k <= |answers| && (k < |answers| ==> answers[k].None?)
    ensures forall i | 0 <= i < k :: answers[i].Some?
  {
    if answers == [] || answers[0].None? then 0 else 1 + Reach(answers[1..])
  }

  /** The tenants a pass gets to, each with the items it is given jobs for. */
  function Found(ids: seq<string>, items: seq<Option<seq<string>>>): seq<Tenant>
    requires |ids| == |items|
  {
    seq(Reach(items), i requires 0 <= i < Reach(items) => Tenant(ids[i], items[i].value))
  }

  lemma FoundAt(ids: seq<string>, items: seq<Option<seq<string>>>, i: nat)
    requires i <= |ids| == |items|
    ensures |Found(ids, items)| == Reach(items) && Jobs(Found(ids, items)[..0]) == []
    ensures i < Reach(items) ==> Found(ids, items)[i] == Tenant(ids[i], items[i].value)
    ensures i <= Reach(items) && i < |items| ==> (items[i].None? <==> i == Reach(items))
  {
  }

  function Polled(jobType: JobType, connectors: seq<Option<seq<Connector>>>): seq<Option<seq<string>>> {
    seq(|connectors|, i requires 0 <= i < |connectors| =>
      if connectors[i].Some? then Some(Items(jobType, connectors[i].value)) else None)
  }

  /** The pass as it is listed: nothing if the tenants could not be listed. */
  function Pass(ids: Option<seq<string>>, items: seq<Option<seq<string>>>): seq<Tenant>
    requires ids.Some? ==> |ids.value| == |items|
  {
    if ids.None? then [] else Found(ids.value, items)
  }

  /** A read of the pass throws: the tenants, or the items of one of them. */
  predicate ReadBreaks(ids: Option<seq<string>>, items: seq<Option<seq<string>>>) {
    ids.None? || Reach(items) < |items|
  }

  class PollScheduler {
    const jobType: JobType
    const guard: Guard
    var log: seq<Job>

    constructor (jobType: JobType, guard: Guard)
      ensures this.jobType == jobType && this.guard == guard && log == []
    {
      this.jobType, this.guard, log := jobType, guard, [];
    }

    method FanOutTenant(tenant: string, connectors: seq<Connector>, accepts: nat, ghost found: Tenant)
      returns (enqueued: nat, threw: bool)
      requires found == Tenant(tenant, Items(jobType, connectors))
      modifies this`log
      ensures threw <==> accepts < |found.items|
      ensures enqueued == (if threw then accepts else |found.items|)
      ensures log == old(log) + JobsOf(found, enqueued)
    {
      enqueued := 0;
      for j := 0 to |connectors|
        invariant enqueued <= accepts && enqueued <= |found.items|
        invariant Items(jobType, connectors[..j]) == found.items[..enqueued]
        invariant log == old(log) + JobsOf(found, enqueued)
      {
        assert connectors[..j + 1][..j] == connectors[..j];
        ItemsPrefix(jobType, connectors, j + 1);
        if Eligible(jobType, connectors[j]) {
          if enqueued == accepts {
            return enqueued, true;
          }
          log := log + [Job(tenant, connectors[j].id)];
          enqueued := enqueued + 1;
        }
      }
      assert connectors[..|connectors|] == connectors;
      threw := false;
    }

    /**
     One pass. `accepts` is how many jobs the queue takes before it throws; reading the tenants or the
     connectors of one may throw as well.
     */
    method Tick(call: Call, tenants: Option<seq<string>>, connectors: seq<Option<seq<Connector>>>, accepts: nat)
      returns (enqueued: nat, threw: bool)
      requires guard.Valid() && (guard.calls != [] ==> guard.calls[|guard.calls| - 1].at <= call.at)
      requires tenants.Some? ==> |tenants.value| == |connectors|
      modifies this`log, guard
      ensures guard.Valid() && guard.calls == old(guard.calls) + [call]
      ensures var items := Polled(jobType, connectors);
              var jobs := Jobs(Pass(tenants, items));
              if Won(guard.calls, guard.intervalMs, guard.ttlSec, |guard.calls| - 1)
              then log == old(log) + Taken(jobs, accepts) && (threw <==> accepts < |jobs| || ReadBreaks(tenants, items))
              else log == old(log) && !threw
      ensures |log| == |old(log)| + enqueued
    {
      var won := guard.Enter(call);
      if !won {
        return 0, false;
      }
      if tenants.None? {
        return 0, true;
      }
      enqueued, threw := FanOut(tenants.value, connectors, accepts, Polled(jobType, connectors));
    }

    method FanOut(
        tenants: seq<string>, connectors: seq<Option<seq<Connector>>>, accepts: nat, ghost items: seq<Option<seq<string>>>)
      returns (enqueued: nat, threw: bool)
      requires |items| == |tenants| == |connectors|
      requires forall i | 0 <= i < |connectors| ::
                 items[i] == if connectors[i].Some? then Some(Items(jobType, connectors[i].value)) else None
      modifies this`log
      ensures log == old(log) + Taken(Jobs(Found(tenants, items)), accepts)
      ensures threw <==> accepts < |Jobs(Found(tenants, items))| || Reach(items) < |items|
      ensures |log| == |old(log)| + enqueued
    {
      hide *;
      FoundAt(tenants, items, 0);
      ghost var found := Found(tenants, items);
      enqueued, threw := 0, false;
      for i := 0 to |tenants|
        invariant i <= |found|
        invariant log == old(log) + Jobs(found[..i]) && enqueued == |Jobs(found[..i])| <= accepts
      {
        FoundAt(tenants, items, i);
        if connectors[i].None? {
          AllOfPrefix(found, i, accepts);
          return enqueued, true;
        }
        var n;
        n, threw := FanOutTenant(tenants[i], connectors[i].value, accepts - enqueued, found[i]);
        JobsTake(found, i, n);
        enqueued := enqueued + n;
        if threw {
          TakenAt(found, i, n);
          return;
        }
      }
      FoundAt(tenants, items, |tenants|);
      AllOfPrefix(found, |tenants|, accepts);
    }
  }

  const PRUNE_EVERY_N_WINDOWS := 288

  /** A sweep of one tenant, and how many jobs had been enqueued by then. */
  datatype Sweep = Sweep(tenant: string, enqueuedBefore: nat)

  function Sweeps(tenants: seq<string>, enqueued: nat): seq<Sweep> {
    if tenants == [] then [] else Sweeps(tenants[..|tenants| - 1], enqueued) + [Sweep(tenants[|tenants| - 1], enqueued)]
  }

  /** Every tenant once, in order, after `enqueued` jobs. */
  lemma {:induction false} SweepsEveryTenant(tenants: seq<string>, enqueued: nat)
    ensures |Sweeps(tenants, enqueued)| == |tenants|
    ensures forall i | 0 <= i < |tenants| :: Sweeps(tenants, enqueued)[i] == Sweep(tenants[i], enqueued)
  {
    if tenants != [] {
      SweepsEveryTenant(tenants[..|tenants| - 1], enqueued);
    }
  }

  class SloScheduler {
    const guard: Guard
    var log: seq<Job>
    var sweeps: seq<Sweep>

    constructor (guard: Guard)
      ensures this.guard == guard && log == [] && sweeps == []
    {
      this.guard, log, sweeps := guard, [], [];
    }

    method FanOutTenant(tenant: string, objectives: seq<string>, accepts: nat, ghost found: Tenant)
      returns (enqueued: nat, threw: bool)
      requires found == Tenant(tenant, objectives)
      modifies this`log
      ensures threw <==> accepts < |objectives|
      ensures enqueued == (if threw then accepts else |objectives|)
      ensures log == old(log) + JobsOf(found, enqueued)
    {
      enqueued := 0;
      for j := 0 to |objectives|
        invariant enqueued == j <= accepts && log == old(log) + JobsOf(found, j)
      {
        if enqueued == accepts {
          return enqueued, true;
        }
        log := log + [Job(tenant, objectives[j])];
        enqueued := enqueued + 1;
      }
      threw := false;
    }

    method FanOut(tenants: seq<string>, objectives: seq<Option<seq<string>>>, accepts: nat)
      returns (enqueued: nat, threw: bool)
      requires |tenants| == |objectives|
      modifies this`log
      ensures log == old(log) + Taken(Jobs(Found(tenants, objectives)), accepts)
      ensures threw <==> accepts < |Jobs(Found(tenants, objectives))| || Reach(objectives) < |objectives|
      ensures |log| == |old(log)| + enqueued
    {
      hide *;
      FoundAt(tenants, objectives, 0);
      ghost var found := Found(tenants, objectives);
      enqueued, threw := 0, false;
      for i := 0 to |tenants|
        invariant i <= |found|
        invariant log == old(log) + Jobs(found[..i]) && enqueued == |Jobs(found[..i])| <= accepts
      {
        FoundAt(tenants, objectives, i);
        if objectives[i].None? {
          AllOfPrefix(found, i, accepts);
          return enqueued, true;
        }
        var n;
        n, threw := FanOutTenant(tenants[i], objectives[i].value, accepts - enqueued, found[i]);
        JobsTake(found, i, n);
        enqueued := enqueued + n;
        if threw {
          TakenAt(found, i, n);
          return;
        }
      }
      FoundAt(tenants, objectives, |tenants|);
      AllOfPrefix(found, |tenants|, accepts);
    }

    /**
     One pass. Every tenant is swept, in order, whether or not other sweeps fail, and only after the
     last job of the window was enqueued; a window whose fan-out threw is not swept.
     */
    method Tick(
        call: Call, tenants: Option<seq<string>>, objectives: seq<Option<seq<string>>>, accepts: nat, prunes: bool)
      returns (enqueued: nat, threw: bool)
      requires guard.Valid() && (guard.calls != [] ==> guard.calls[|guard.calls| - 1].at <= call.at)
      requires tenants.Some? ==> |tenants.value| == |objectives|
      modifies this`log, this`sweeps, guard
      ensures guard.Valid() && guard.calls == old(guard.calls) + [call]
      ensures var won := Won(guard.calls, guard.intervalMs, guard.ttlSec, |guard.calls| - 1);
              var jobs := Jobs(Pass(tenants, objectives));
              && log == old(log) + (if won then Taken(jobs, accepts) else [])
              && (threw <==> won && (accepts < |jobs| || ReadBreaks(tenants, objectives)))
              && sweeps == old(sweeps) +
                   if won && !threw && prunes && Window(call.stamp, guard.intervalMs) % 288 == 0
                   then Sweeps(tenants.value, |log|) else []
      ensures |log| == |old(log)| + enqueued
    {
      var won := guard.Enter(call);
      if !won {
        return 0, false;
      }
      if tenants.None? {
        return 0, true;
      }
      enqueued, threw := FanOut(tenants.value, objectives, accepts);
      if threw {
        return;
      }
      if prunes && Window(call.stamp, guard.intervalMs) % PRUNE_EVERY_N_WINDOWS == 0 {
        SweepAll(tenants.value);
      }
    }

    method SweepAll(tenants: seq<string>)
      modifies this`sweeps
      ensures sweeps == old(sweeps) + Sweeps(tenants, |log|)
    {
      for i := 0 to |tenants|
        invariant sweeps == old(sweeps) + Sweeps(tenants[..i], |log|)
      {
        assert tenants[..i + 1][..i] == tenants[..i];
        sweeps := sweeps + [Sweep(tenants[i], |log|)];
      }
      assert tenants[..|tenants|] == tenants;
    }
  }
}
