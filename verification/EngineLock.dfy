/**
 The per-incident engine mutex: apps/triage-worker/src/lock.ts as `withEngineLock` in
 apps/triage-worker/src/worker/runtime.ts uses it. Tokens name the runs. A run takes at most
 `maxRunMs` from its lock to its end, which the job deadlines enforce; giving the lock back may come any time
 after, or never if the worker crashes.
 */
module EngineLock {
  import opened Prelude
  import opened LeaseStore

  datatype Phase = Live | Ended | Over

  datatype Run = Run(incident: string, start: nat, phase: Phase)

  datatype World = World(clock: nat, locks: map<string, Lease>, runs: seq<Run>)

  datatype Step = Elapse(ms: nat) | Begin(incident: string) | End(run: nat) | GiveBack(run: nat) | Die(run: nat)

  const START := World(0, map[], [])

  ghost predicate Can(w: World, ttlMs: nat, maxRunMs: nat, e: Step) {
    match e
    case Elapse(ms) => forall r | 0 <= r < |w.runs| && w.runs[r].phase.Live? :: w.clock + ms <= w.runs[r].start + maxRunMs
    case Begin(incident) => IsFree(w.locks, incident, w.clock)
    case End(r) => r < |w.runs| && w.runs[r].phase.Live?
    case GiveBack(r) => r < |w.runs| && w.runs[r].phase.Ended?
    case Die(r) => r < |w.runs| && !w.runs[r].phase.Over?
  }

  function To(w: World, r: nat, phase: Phase): World
    requires r < |w.runs|
  {
    w.(runs := w.runs[r := w.runs[r].(phase := phase)])
  }

  ghost function Do(w: World, ttlMs: nat, maxRunMs: nat, e: Step): World
    requires Can(w, ttlMs, maxRunMs, e)
  {
    match e
    case Elapse(ms) => w.(clock := w.clock + ms)
    case Begin(incident) =>
      w.(locks := Granted(w.locks, incident, |w.runs|, w.clock, ttlMs), runs := w.runs + [Run(incident, w.clock, Live)])
    case End(r) => To(w, r, Ended)
    case GiveBack(r) =>
      var incident := w.runs[r].incident;
      To(w, r, Over).(locks := Released(w.locks, incident, r, w.clock))
    case Die(r) => To(w, r, Over)
  }

  ghost predicate Occurs(ttlMs: nat, maxRunMs: nat, steps: seq<Step>)
    decreases |steps|, 0
  {
    steps == [] ||
    (var n := |steps| - 1;
     Occurs(ttlMs, maxRunMs, steps[..n]) && Can(Reached(ttlMs, maxRunMs, steps[..n]), ttlMs, maxRunMs, steps[n]))
  }

  ghost function Reached(ttlMs: nat, maxRunMs: nat, steps: seq<Step>): World
    requires Occurs(ttlMs, maxRunMs, steps)
    decreases |steps|, 1
  {
    if steps == [] then START
    else var n := |steps| - 1; Do(Reached(ttlMs, maxRunMs, steps[..n]), ttlMs, maxRunMs, steps[n])
  }

  /** A live run still has its lock. */
  ghost predicate Inv(w: World, ttlMs: nat, maxRunMs: nat) {
    forall r | 0 <= r < |w.runs| && w.runs[r].phase.Live? ::
      && w.clock <= w.runs[r].start + maxRunMs
      && w.runs[r].incident in w.locks
      && w.locks[w.runs[r].incident] == Lease(r, w.runs[r].start + ttlMs)
  }

  lemma {:induction false} RunsKeepTheirLock(ttlMs: nat, maxRunMs: nat, steps: seq<Step>)
    requires maxRunMs < ttlMs && Occurs(ttlMs, maxRunMs, steps)
    ensures Inv(Reached(ttlMs, maxRunMs, steps), ttlMs, maxRunMs)
  {
    if steps != [] {
      RunsKeepTheirLock(ttlMs, maxRunMs, steps[..|steps| - 1]);
    }
  }

  ghost predicate Overlapping(w: World, q: nat, r: nat) {
    q < r < |w.runs| && w.runs[q].phase.Live? && w.runs[r].phase.Live? && w.runs[q].incident == w.runs[r].incident
  }

  /** No two runs of one incident are ever live together. */
  ghost predicate Exclusive(ttlMs: nat, maxRunMs: nat) {
    forall steps, q: nat, r: nat | Occurs(ttlMs, maxRunMs, steps) :: !Overlapping(Reached(ttlMs, maxRunMs, steps), q, r)
  }

  /** The mutex excludes exactly if its time to live is longer than the longest run. */
  lemma TtlMustOutliveRuns(ttlMs: nat, maxRunMs: nat)
    ensures Exclusive(ttlMs, maxRunMs) <==> maxRunMs < ttlMs
  {
    if maxRunMs < ttlMs {
      forall steps, q: nat, r: nat | Occurs(ttlMs, maxRunMs, steps)
        ensures !Overlapping(Reached(ttlMs, maxRunMs, steps), q, r)
      {
        RunsKeepTheirLock(ttlMs, maxRunMs, steps);
      }
    } else {
      var one, two := [Begin("i")], [Begin("i"), Elapse(ttlMs)];
      var three := [Begin("i"), Elapse(ttlMs), Begin("i")];
      assert one[..0] == [] && two[..1] == one && three[..2] == two;
      assert Occurs(ttlMs, maxRunMs, []);
      assert Occurs(ttlMs, maxRunMs, one);
      assert Occurs(ttlMs, maxRunMs, two);
      assert Occurs(ttlMs, maxRunMs, three);
      assert Overlapping(Reached(ttlMs, maxRunMs, three), 0, 1);
    }
  }

  /** The time to live in production, from the job ceiling and the grace a stuck job is given. */
  function EngineTtlMs(maxProcessingMs: nat, stuckGraceMs: nat): nat {
    maxProcessingMs + stuckGraceMs + 60_000
  }

  lemma ProductionExcludes(maxProcessingMs: nat, stuckGraceMs: nat)
    ensures Exclusive(EngineTtlMs(maxProcessingMs, stuckGraceMs), maxProcessingMs + stuckGraceMs)
  {
    TtlMustOutliveRuns(EngineTtlMs(maxProcessingMs, stuckGraceMs), maxProcessingMs + stuckGraceMs);
  }

  /** A live run is at least a minute away from losing its lock, at every moment of every run. */
  lemma LockOutlivesRunByAMinute(maxProcessingMs: nat, stuckGraceMs: nat, steps: seq<Step>, r: nat)
    requires var ttlMs := EngineTtlMs(maxProcessingMs, stuckGraceMs); Occurs(ttlMs, maxProcessingMs + stuckGraceMs, steps)
    ensures var w := Reached(EngineTtlMs(maxProcessingMs, stuckGraceMs), maxProcessingMs + stuckGraceMs, steps);
      r < |w.runs| && w.runs[r].phase.Live? ==>
        && w.runs[r].incident in w.locks && w.locks[w.runs[r].incident].token == r
        && w.clock + 60_000 <= w.locks[w.runs[r].incident].deadline
  {
    RunsKeepTheirLock(EngineTtlMs(maxProcessingMs, stuckGraceMs), maxProcessingMs + stuckGraceMs, steps);
  }

  /**
   A held lock ends with time or with the release of the run that has it, and that release frees the incident
   at once. A run that dies leaves its lock to expire.
   */
  lemma LockEndsWithItsRun(w: World, ttlMs: nat, maxRunMs: nat, step: Step, incident: string, r: nat)
    requires Can(w, ttlMs, maxRunMs, step) && HeldBy(w.locks, incident, r, w.clock)
    requires r < |w.runs| && w.runs[r].incident == incident
    ensures var w' := Do(w, ttlMs, maxRunMs, step);
      && (!HeldBy(w'.locks, incident, r, w'.clock) ==> step.Elapse? || step == GiveBack(r))
      && (step == GiveBack(r) ==> Can(w', ttlMs, maxRunMs, Begin(incident)))
      && (step.Elapse? ==> (HeldBy(w'.locks, incident, r, w'.clock) <==> w'.clock < w.locks[incident].deadline))
  {
  }

  /** A release that comes late leaves the lock of a later run alone, even if that run is of another worker. */
  lemma LateReleaseIsHarmless(ttlMs: nat, maxRunMs: nat, steps: seq<Step>, late: nat, r: nat)
    requires Occurs(ttlMs, maxRunMs, steps) && Can(Reached(ttlMs, maxRunMs, steps), ttlMs, maxRunMs, GiveBack(late))
    requires late != r
    ensures var w := Reached(ttlMs, maxRunMs, steps);
            var w' := Do(w, ttlMs, maxRunMs, GiveBack(late));
            forall incident :: HeldBy(w.locks, incident, r, w.clock) ==> HeldBy(w'.locks, incident, r, w'.clock)
  {
  }
}
