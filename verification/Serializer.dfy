/**
 The per-key queue of promises: `serializeSlackMutation` in apps/api/src/surface-config.ts and
 `serializeMutation` in apps/api/src/connectors.ts. Each submission chains on the promise the map holds
 for its key, stores its own, and takes it out again once settled unless a later one replaced it. The
 microtasks may run in any order the promises allow.
 */
module Serializer {
  import opened Prelude
  import Separators

  /** `Done`: the operation's own promise settled. `Settled`: the promise the next one waits for did. */
  datatype Stage = Waiting | Running | Done(fulfilled: bool) | Settled(fulfilled: bool)

  /** Submissions are numbered; `after` is the one this one is chained on. */
  datatype Submission = Submission(key: string, after: Option<nat>, stage: Stage, cleaned: bool)

  datatype State = State(subs: seq<Submission>, tails: map<string, nat>)

  const INITIAL := State([], map[])

  datatype Event =
    | Submit(key: string)
    | Start(n: nat)
    | Complete(n: nat, fulfilled: bool)
    | Settle(n: nat)
    | CleanUp(n: nat)

  predicate Enabled(s: State, e: Event) {
    match e
    case Submit(_) => true
    case Start(n) =>
      && n < |s.subs| && s.subs[n].stage.Waiting?
      && (s.subs[n].after.Some? ==> s.subs[n].after.value < |s.subs| && s.subs[s.subs[n].after.value].stage.Settled?)
    case Complete(n, _) => n < |s.subs| && s.subs[n].stage.Running?
    case Settle(n) => n < |s.subs| && s.subs[n].stage.Done?
    case CleanUp(n) => n < |s.subs| && s.subs[n].stage.Settled? && !s.subs[n].cleaned
  }

  function Tail(s: State, key: string): Option<nat> {
    if key in s.tails then Some(s.tails[key]) else None
  }

  function Move(s: State, n: nat, stage: Stage): State
    requires n < |s.subs|
  {
    s.(subs := s.subs[n := s.subs[n].(stage := stage)])
  }

  function Next(s: State, e: Event): State
    requires Enabled(s, e)
  {
    match e
    case Submit(key) =>
      State(s.subs + [Submission(key, Tail(s, key), Waiting, false)], s.tails[key := |s.subs|])
    case Start(n) => Move(s, n, Running)
    case Complete(n, fulfilled) => Move(s, n, Done(fulfilled))
    case Settle(n) => Move(s, n, Settled(s.subs[n].stage.fulfilled))
    case CleanUp(n) =>
      State(s.subs[n := s.subs[n].(cleaned := true)],
            if Tail(s, s.subs[n].key) == Some(n) then s.tails - {s.subs[n].key} else s.tails)
  }

  predicate Possible(events: seq<Event>)
    decreases |events|, 0
  {
    events == [] ||
    (var n := |events| - 1; Possible(events[..n]) && Enabled(After(events[..n]), events[n]))
  }

  function After(events: seq<Event>): State
    requires Possible(events)
    decreases |events|, 1
  {
    if events == [] then INITIAL else var n := |events| - 1; Next(After(events[..n]), events[n])
  }

  // ---------------------------------------------------------------------------------------------
  // The invariant

  /** No submission of the key comes after `n`. */
  ghost predicate IsLast(s: State, key: string, n: nat) {
    n < |s.subs| && s.subs[n].key == key && forall m | n < m < |s.subs| :: s.subs[m].key != key
  }

  /** Every submission of the key before the `n`-th submission is settled. */
  ghost predicate SettledBefore(s: State, key: string, n: nat) {
    forall m | 0 <= m < n && m < |s.subs| && s.subs[m].key == key :: s.subs[m].stage.Settled?
  }

  /** A submission waits for the one right before it on its key, unless all of them are settled. */
  ghost predicate ChainedAt(s: State, n: nat)
    requires n < |s.subs|
  {
    var sub := s.subs[n];
    match sub.after
    case Some(m) => m < n && s.subs[m].key == sub.key && forall i | m < i < n :: s.subs[i].key != sub.key
    case None => SettledBefore(s, sub.key, n)
  }

  ghost predicate Chained(s: State) {
    forall n | 0 <= n < |s.subs| :: ChainedAt(s, n)
  }

  ghost predicate InOrder(s: State) {
    forall n | 0 <= n < |s.subs| && !s.subs[n].stage.Waiting? :: SettledBefore(s, s.subs[n].key, n)
  }

  /** The map holds the last submission of a key until that one has been cleaned up after. */
  ghost predicate Tailed(s: State) {
    && (forall key | key in s.tails :: IsLast(s, key, s.tails[key]) && !s.subs[s.tails[key]].cleaned)
    && (forall n | 0 <= n < |s.subs| && !s.subs[n].cleaned && IsLast(s, s.subs[n].key, n) :: s.subs[n].key in s.tails)
  }

  ghost predicate Quiet(s: State) {
    forall n | 0 <= n < |s.subs| && (s.subs[n].key !in s.tails || s.subs[n].cleaned) :: s.subs[n].stage.Settled?
  }

  ghost predicate Inv(s: State) {
    Chained(s) && InOrder(s) && Tailed(s) && Quiet(s)
  }

  /** `t` has the submissions of `s`, some of them further on. */
  ghost predicate Further(s: State, t: State) {
    && |t.subs| == |s.subs|
    && forall n | 0 <= n < |s.subs| ::
         t.subs[n].key == s.subs[n].key && t.subs[n].after == s.subs[n].after
         && (s.subs[n].stage.Settled? ==> t.subs[n].stage.Settled?)
  }

  lemma FurtherSettledBefore(s: State, t: State, key: string, n: nat)
    requires Further(s, t) && SettledBefore(s, key, n)
    ensures SettledBefore(t, key, n)
  {
    forall m | 0 <= m < n && m < |t.subs| && t.subs[m].key == key ensures t.subs[m].stage.Settled? {
      assert s.subs[m].stage.Settled?;
    }
  }

  lemma FurtherChained(s: State, t: State)
    requires Further(s, t) && Chained(s)
    ensures Chained(t)
  {
    forall n | 0 <= n < |t.subs| ensures ChainedAt(t, n) {
      assert ChainedAt(s, n);
      if s.subs[n].after.None? {
        FurtherSettledBefore(s, t, s.subs[n].key, n);
      }
    }
  }

  lemma FurtherLast(s: State, t: State, key: string, n: nat)
    requires Further(s, t)
    ensures IsLast(s, key, n) <==> IsLast(t, key, n)
  {
    if n < |s.subs| {
      forall m | n < m < |s.subs| ensures s.subs[m].key == t.subs[m].key {
      }
    }
  }

  lemma FurtherTailed(s: State, t: State)
    requires Further(s, t) && Tailed(s) && t.tails == s.tails
    requires forall n | 0 <= n < |s.subs| :: t.subs[n].cleaned == s.subs[n].cleaned
    ensures Tailed(t)
  {
    forall key, n: nat ensures IsLast(s, key, n) <==> IsLast(t, key, n) {
      FurtherLast(s, t, key, n);
    }
    hide IsLast;
  }

  lemma MoveKeeps(s: State, e: Event)
    requires Inv(s) && Enabled(s, e) && (e.Start? || e.Complete? || e.Settle?)
    ensures Inv(Next(s, e))
  {
    var t := Next(s, e);
    assert Further(s, t);
    FurtherChained(s, t);
    FurtherTailed(s, t);
    assert Quiet(t);
    if e.Start? {
      assert ChainedAt(s, e.n);
      WaitedForIsEnough(s, e.n);
    }
    forall m | 0 <= m < |t.subs| && !t.subs[m].stage.Waiting? ensures SettledBefore(t, t.subs[m].key, m) {
      FurtherSettledBefore(s, t, s.subs[m].key, m);
    }
  }

  /** What a submission waits for settled only after everything before it on the key. */
  lemma WaitedForIsEnough(s: State, n: nat)
    requires Chained(s) && InOrder(s) && n < |s.subs| && ChainedAt(s, n)
    requires s.subs[n].after.Some? ==> s.subs[s.subs[n].after.value].stage.Settled?
    ensures SettledBefore(s, s.subs[n].key, n)
  {
    if s.subs[n].after.Some? {
      var w := s.subs[n].after.value;
      assert SettledBefore(s, s.subs[w].key, w);
    }
  }

  lemma SubmitKeeps(s: State, key: string)
    requires Inv(s)
    ensures Inv(Next(s, Submit(key)))
  {
    var t, n := Next(s, Submit(key)), |s.subs|;
    forall m | 0 <= m < n ensures ChainedAt(t, m) {
      assert ChainedAt(s, m);
    }
    assert ChainedAt(t, n) by {
      assert key in s.tails ==> IsLast(s, key, s.tails[key]);
    }
    forall m | 0 <= m < |t.subs| && !t.subs[m].stage.Waiting? ensures SettledBefore(t, t.subs[m].key, m) {
      assert SettledBefore(s, s.subs[m].key, m);
    }
    SubmitKeepsTails(s, key);
  }

  lemma SubmitKeepsTails(s: State, key: string)
    requires Tailed(s)
    ensures Tailed(Next(s, Submit(key)))
  {
    var t := Next(s, Submit(key));
    forall k | k in t.tails ensures IsLast(t, k, t.tails[k]) && !t.subs[t.tails[k]].cleaned {
      if k != key {
        assert IsLast(s, k, s.tails[k]);
      }
    }
    forall m | 0 <= m < |t.subs| && !t.subs[m].cleaned && IsLast(t, t.subs[m].key, m) ensures t.subs[m].key in t.tails {
      if m < |s.subs| {
        forall i | m < i < |s.subs| ensures s.subs[i].key != s.subs[m].key {
          assert t.subs[i].key != t.subs[m].key;
        }
        assert IsLast(s, s.subs[m].key, m);
      }
    }
  }

  lemma CleanUpKeeps(s: State, n: nat)
    requires Inv(s) && Enabled(s, CleanUp(n))
    ensures Inv(Next(s, CleanUp(n)))
  {
    var t := Next(s, CleanUp(n));
    assert Further(s, t);
    FurtherChained(s, t);
    forall m | 0 <= m < |t.subs| && !t.subs[m].stage.Waiting? ensures SettledBefore(t, t.subs[m].key, m) {
      FurtherSettledBefore(s, t, s.subs[m].key, m);
    }
    CleanUpKeepsTails(s, n);
    if Tail(s, s.subs[n].key) == Some(n) {
      assert IsLast(s, s.subs[n].key, n) && SettledBefore(s, s.subs[n].key, n);
    }
  }

  lemma CleanUpKeepsTails(s: State, n: nat)
    requires Tailed(s) && Enabled(s, CleanUp(n))
    ensures Tailed(Next(s, CleanUp(n)))
  {
    var t := Next(s, CleanUp(n));
    forall key, m: nat ensures IsLast(s, key, m) <==> IsLast(t, key, m) {
      FurtherLast(s, t, key, m);
    }
    forall m | 0 <= m < |t.subs| && !t.subs[m].cleaned && IsLast(t, t.subs[m].key, m) ensures t.subs[m].key in t.tails {
      assert m != n && IsLast(s, s.subs[m].key, m);
      assert Tail(s, s.subs[n].key) == Some(n) ==> IsLast(s, s.subs[n].key, n);
    }
  }

  lemma {:induction false} RunKeeps(events: seq<Event>)
    requires Possible(events)
    ensures Inv(After(events))
  {
    if events != [] {
      var n := |events| - 1;
      RunKeeps(events[..n]);
      var s := After(events[..n]);
      hide Inv, Next, Enabled;
      match events[n]
      case Submit(key) => SubmitKeeps(s, key);
      case CleanUp(m) => CleanUpKeeps(s, m);
      case _ => MoveKeeps(s, events[n]);
    }
  }

  // ---------------------------------------------------------------------------------------------
  // What every schedule guarantees

  /** What a route that must not overtake a mutation asks. */
  predicate MutationPending(s: State, key: string) {
    key in s.tails
  }

  /** Operations of one key never overlap, and one that started finds all earlier ones settled. */
  lemma OneAtATimeInOrder(events: seq<Event>, m: nat, n: nat)
    requires Possible(events)
    requires m < n < |After(events).subs| && After(events).subs[m].key == After(events).subs[n].key
    ensures After(events).subs[n].stage.Waiting? || After(events).subs[m].stage.Settled?
    ensures !(After(events).subs[m].stage.Running? && After(events).subs[n].stage.Running?)
  {
    RunKeeps(events);
    var s := After(events);
    assert !s.subs[n].stage.Waiting? ==> SettledBefore(s, s.subs[n].key, n);
  }

  /** No mutation is pending on a key only if every operation submitted on it settled. */
  lemma AbsentMeansSettled(events: seq<Event>, key: string)
    requires Possible(events) && !MutationPending(After(events), key)
    ensures forall n | 0 <= n < |After(events).subs| && After(events).subs[n].key == key ::
              After(events).subs[n].stage.Settled?
  {
    RunKeeps(events);
  }

  /** The entry is there from the first submission until the last one has been cleaned up after. */
  lemma PresentUntilCleaned(events: seq<Event>, n: nat)
    requires Possible(events) && n < |After(events).subs| && IsLast(After(events), After(events).subs[n].key, n)
    ensures MutationPending(After(events), After(events).subs[n].key) <==> !After(events).subs[n].cleaned
  {
    RunKeeps(events);
    var s := After(events);
    var key := s.subs[n].key;
    if key in s.tails {
      assert IsLast(s, key, s.tails[key]);
      assert s.tails[key] == n;
    }
  }

  /**
   The oldest unsettled operation of a key is never stuck behind another, however the ones before it
   ended: its start, its own completion or its settling is next.
   */
  lemma OldestIsNotStuck(events: seq<Event>, n: nat, fulfilled: bool)
    requires Possible(events) && n < |After(events).subs| && !After(events).subs[n].stage.Settled?
    requires SettledBefore(After(events), After(events).subs[n].key, n)
    ensures Possible(events + [Start(n)]) || Possible(events + [Complete(n, fulfilled)]) || Possible(events + [Settle(n)])
  {
    RunKeeps(events);
    var s := After(events);
    assert ChainedAt(s, n);
    var e :=
      if s.subs[n].stage.Waiting? then Start(n)
      else if s.subs[n].stage.Running? then Complete(n, fulfilled)
      else Settle(n);
    assert (events + [e])[..|events|] == events;
    assert Enabled(s, e);
    assert Possible(events + [e]);
  }

  /** Once everything on a key was cleaned up after, the map has forgotten the key. */
  lemma QuietMeansAbsent(events: seq<Event>, key: string)
    requires Possible(events)
    requires forall n | 0 <= n < |After(events).subs| && After(events).subs[n].key == key :: After(events).subs[n].cleaned
    ensures !MutationPending(After(events), key)
  {
    RunKeeps(events);
  }

  /** Tenant ids are UUIDs: two tenants, or two kinds of mutation, never share a queue. */
  lemma KeysApart(tenant: string, kind: string, tenant': string, kind': string)
    requires ':' !in tenant && ':' !in tenant'
    ensures tenant + ":" + kind == tenant' + ":" + kind' <==> tenant == tenant' && kind == kind'
  {
    if tenant + ":" + kind == tenant' + ":" + kind' {
      assert tenant + [':'] + kind == tenant' + [':'] + kind';
      Separators.JoinIsInjective(':', tenant, kind, tenant', kind');
    }
  }

  /** A submission ends as its own operation did, fulfilled or rejected, however the ones before it ended. */
  lemma {:induction false} EndsAsItsOperation(events: seq<Event>, n: nat)
    requires Possible(events) && n < |After(events).subs|
    ensures var stage := After(events).subs[n].stage;
      && (stage.Done? ==> Complete(n, stage.fulfilled) in events)
      && (stage.Settled? ==> Complete(n, stage.fulfilled) in events)
  {
    if events != [] {
      var m := |events| - 1;
      if n < |After(events[..m]).subs| {
        EndsAsItsOperation(events[..m], n);
      }
    }
  }

  /** An operation completes once: what it is reported as can never be reported otherwise. */
  lemma {:induction false} CompletesOnce(events: seq<Event>, n: nat)
    requires Possible(events)
    ensures Complete(n, true) in events || Complete(n, false) in events ==>
              n < |After(events).subs| && (After(events).subs[n].stage.Done? || After(events).subs[n].stage.Settled?)
    ensures !(Complete(n, true) in events && Complete(n, false) in events)
  {
    if events != [] {
      var m := |events| - 1;
      CompletesOnce(events[..m], n);
      assert forall e :: e in events <==> e in events[..m] || e == events[m];
    }
  }

  // ---------------------------------------------------------------------------------------------
  // The map

  class Queue {
    var subs: seq<Submission>
    var tails: map<string, nat>

    constructor ()
      ensures Snapshot() == INITIAL
    {
      subs, tails := [], map[];
    }

    function Snapshot(): State
      reads this
    {
      State(subs, tails)
    }

    method Serialize(key: string) returns (n: nat)
      modifies this
      ensures Snapshot() == Next(old(Snapshot()), Submit(key)) && n == |old(subs)|
    {
      var previous := if key in tails then Some(tails[key]) else None;
      n := |subs|;
      subs := subs + [Submission(key, previous, Waiting, false)];
      tails := tails[key := n];
    }

    /** The promise of an operation starts, fulfils or rejects, or passes that on. */
    method Advance(e: Event)
      requires Enabled(Snapshot(), e) && (e.Start? || e.Complete? || e.Settle?)
      modifies this`subs
      ensures Snapshot() == Next(old(Snapshot()), e)
    {
      var n := e.n;
      var stage :=
        if e.Start? then Running
        else if e.Complete? then Done(e.fulfilled) else Settled(subs[n].stage.fulfilled);
      subs := subs[n := subs[n].(stage := stage)];
    }

    method Cleanup(n: nat)
      requires Enabled(Snapshot(), CleanUp(n))
      modifies this
      ensures Snapshot() == Next(old(Snapshot()), CleanUp(n))
    {
      var key := subs[n].key;
      subs := subs[n := subs[n].(cleaned := true)];
      if key in tails && tails[key] == n {
        tails := tails - {key};
      }
    }
  }
}
