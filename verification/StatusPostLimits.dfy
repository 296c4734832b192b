/** What a recorded status post guarantees over a run, and exactly when a second one can appear. */
module StatusPostLimits {
  import opened Prelude
  import opened Projection
  import opened Deliveries
  import opened LeaseStore
  import opened DeliveryProtocol
  import A = AtMostOnce
  import P = StatusPost

  // ---------------------------------------------------------------------------------------------
  // The recorded post

  /** Order of status versions: a reassignment restarts the version under a new generation. */
  predicate NotOlder(x: Binding, y: Binding) {
    x.generation < y.generation || (x.generation == y.generation && x.statusVersion <= y.statusVersion)
  }

  /** Store calls change a binding's recorded post only by the version-checked advance. */
  lemma StoreOrder(s: State, a: nat, call: Call, b: nat)
    requires Present(s, a) && !IsSlackCall(call) && b in s.bindings && s.bindings[b].statusPost.Some?
    ensures var t := ServeStore(s, a, call).0;
      b in t.bindings && t.bindings[b].statusPost.Some? && NotOlder(s.bindings[b], t.bindings[b])
  {
  }

  lemma AwaitOrder(s: State, a: nat, reply: SlackReply, b: nat)
    requires Enabled(s, Await(a, reply)) && b in s.bindings && s.bindings[b].statusPost.Some?
    ensures var s' := Next(s, Await(a, reply));
      b in s'.bindings && s'.bindings[b].statusPost.Some? && NotOlder(s.bindings[b], s'.bindings[b])
  {
    hide Resume, StageAfter, NotOlder;
    var call := CallOf(RowOf(s, a).msg, s.attempts[a].stage.phase);
    if IsSlackCall(call) {
      A.SlackFrame(s, a, call, reply);
      assert NotOlder(s.bindings[b], s.bindings[b]) by { Reflexive(s.bindings[b]); }
    } else {
      StoreOrder(s, a, call, b);
    }
  }

  lemma Reflexive(x: Binding)
    ensures NotOlder(x, x)
  {
  }

  lemma VersionStep(s: State, e: Event, b: nat)
    requires Enabled(s, e) && b in s.bindings && s.bindings[b].statusPost.Some?
    ensures b in Next(s, e).bindings && Next(s, e).bindings[b].statusPost.Some?
    ensures NotOlder(s.bindings[b], Next(s, e).bindings[b])
  {
    hide ServeStore, ServeSlack, AwaitStep;
    if e.Await? {
      AwaitOrder(s, e.attempt, e.reply, b);
    } else if e.StoreFailed? {
      StoreOrder(s, e.attempt, CallOf(RowOf(s, e.attempt).msg, s.attempts[e.attempt].stage.phase), b);
    }
  }

  lemma LogGrows(s: State, e: Event)
    requires Enabled(s, e)
    ensures s.creations <= Next(s, e).creations
  {
    if e.Await? {
      A.AwaitFrame(s, e.attempt, e.reply);
    } else if e.StoreFailed? {
      A.StoreFrame(s, e.attempt, CallOf(RowOf(s, e.attempt).msg, s.attempts[e.attempt].stage.phase));
    }
  }

  predicate StatusOf(e: Creation, b: nat) {
    e.lifecycle && e.binding == b
  }

  /** No status post of the binding is the work of an attempt that claimed after it had lost the lease. */
  ghost predicate FencedOn(s: State, b: nat) {
    forall i | 0 <= i < |s.creations| && StatusOf(s.creations[i], b) :: s.creations[i].attempt !in s.lateClaims
  }

  /** Slack returned the timestamp of every status post of the binding, or gave no answer. */
  ghost predicate StampedOn(s: State, b: nat) {
    forall i | 0 <= i < |s.creations| && StatusOf(s.creations[i], b) :: !s.creations[i].misread
  }

  lemma PostStays(s: State, e: Event, b: nat)
    requires A.Inv(s) && P.Inv(s, b) && Enabled(s, e) && FencedOn(Next(s, e), b)
    requires s.bindings[b].statusPost.Some?
    ensures P.Inv(Next(s, e), b) && Next(s, e).bindings[b].statusPost == s.bindings[b].statusPost
  {
    hide A.Inv, P.Inv, Enabled, Effect;
    P.StepKeeps(s, e, b);
    P.BindingExists(s, b);
    LogGrows(s, e);
    VersionStep(s, e, b);
    SamePost(s, Next(s, e), b);
  }

  lemma FencedBefore(s: State, s': State, b: nat)
    requires s.creations <= s'.creations && s.lateClaims <= s'.lateClaims && FencedOn(s', b)
    ensures FencedOn(s, b)
  {
    forall i | 0 <= i < |s.creations| && StatusOf(s.creations[i], b) ensures s.creations[i].attempt !in s.lateClaims {
      assert s'.creations[i] == s.creations[i];
    }
  }

  /** Both recorded posts are in the log, and the log has one status post of the binding. */
  lemma SamePost(s: State, s': State, b: nat)
    requires P.Inv(s, b) && P.Inv(s', b) && s.bindings[b].statusPost.Some? && s'.bindings[b].statusPost.Some?
    requires s.creations <= s'.creations && FencedOn(s', b)
    ensures s'.bindings[b].statusPost == s.bindings[b].statusPost
  {
    hide P.Known, P.Exclusive, P.Visible;
    var i :| 0 <= i < |s.creations| && P.IsStatus(s.creations[i], b) && s.creations[i].post == s.bindings[b].statusPost.value;
    var j :| 0 <= j < |s'.creations| && P.IsStatus(s'.creations[j], b) && s'.creations[j].post == s'.bindings[b].statusPost.value;
    assert s'.creations[i] == s.creations[i];
    assert i == j;
  }

  /** While status posts come from fenced claims only, the recorded post never changes once it is set. */
  lemma {:induction false} RecordedPostIsFixed(events: seq<Event>, k: nat, b: nat)
    requires Possible(events) && k <= |events| && FencedOn(After(events), b)
    ensures Possible(events[..k]) && FencedOn(After(events[..k]), b)
    ensures b in After(events[..k]).bindings && After(events[..k]).bindings[b].statusPost.Some? ==>
              b in After(events).bindings &&
              After(events).bindings[b].statusPost == After(events[..k]).bindings[b].statusPost
    decreases |events|
  {
    if k == |events| {
      assert events[..k] == events;
    } else {
      var n := |events| - 1;
      P.BindingsStay(After(events[..n]), events[n], b);
      LogGrows(After(events[..n]), events[n]);
      FencedBefore(After(events[..n]), After(events), b);
      RecordedPostIsFixed(events[..n], k, b);
      assert events[..n][..k] == events[..k];
      if b in After(events[..k]).bindings && After(events[..k]).bindings[b].statusPost.Some? {
        P.RunKeeps(events[..n], b);
        PostStays(After(events[..n]), events[n], b);
      }
    }
  }

  /** The recorded version never goes back within one assignment of the thread, whatever is lost or late. */
  lemma {:induction false} VersionNeverGoesBack(events: seq<Event>, k: nat, b: nat)
    requires Possible(events) && k <= |events|
    ensures Possible(events[..k])
    ensures b in After(events[..k]).bindings && After(events[..k]).bindings[b].statusPost.Some? ==>
              b in After(events).bindings && After(events).bindings[b].statusPost.Some? &&
              NotOlder(After(events[..k]).bindings[b], After(events).bindings[b])
    decreases |events|
  {
    if k == |events| {
      assert events[..k] == events;
    } else {
      var n := |events| - 1;
      VersionNeverGoesBack(events[..n], k, b);
      assert events[..n][..k] == events[..k];
      if b in After(events[..k]).bindings && After(events[..k]).bindings[b].statusPost.Some? {
        VersionStep(After(events[..n]), events[n], b);
      }
    }
  }

  /** An event lowers the recorded version exactly if it reassigns the thread and there is something to lower. */
  lemma VersionDropsOnlyOnReassign(s: State, e: Event, b: nat)
    requires Enabled(s, e) && b in s.bindings && s.bindings[b].statusPost.Some?
    ensures b in Next(s, e).bindings
    ensures Next(s, e).bindings[b].statusVersion < s.bindings[b].statusVersion <==>
              e == Reassign(b) && s.bindings[b].statusVersion > -1
  {
    VersionStep(s, e, b);
    GenerationStep(s, e, b);
    hide Next;
    if e == Reassign(b) {
      Reassigned(s, b);
    }
  }

  lemma Reassigned(s: State, b: nat)
    requires Enabled(s, Reassign(b))
    ensures b in Next(s, Reassign(b)).bindings && Next(s, Reassign(b)).bindings[b].statusVersion == -1
  {
  }

  /** Only a reassignment changes the assignment of a thread. */
  lemma GenerationStep(s: State, e: Event, b: nat)
    requires Enabled(s, e) && b in s.bindings
    ensures b in Next(s, e).bindings
    ensures e != Reassign(b) ==> Next(s, e).bindings[b].generation == s.bindings[b].generation
  {
    hide AwaitStep;
    if e.Await? {
      AwaitGeneration(s, e.attempt, e.reply, b);
    } else if e.StoreFailed? {
      StoreGeneration(s, e.attempt, CallOf(RowOf(s, e.attempt).msg, s.attempts[e.attempt].stage.phase), b);
    }
  }

  lemma StoreGeneration(s: State, a: nat, call: Call, b: nat)
    requires Present(s, a) && !IsSlackCall(call) && b in s.bindings
    ensures var t := ServeStore(s, a, call).0; b in t.bindings && t.bindings[b].generation == s.bindings[b].generation
  {
  }

  lemma AwaitGeneration(s: State, a: nat, reply: SlackReply, b: nat)
    requires Enabled(s, Await(a, reply)) && b in s.bindings
    ensures var s' := Next(s, Await(a, reply));
      b in s'.bindings && s'.bindings[b].generation == s.bindings[b].generation
  {
    hide Resume, StageAfter;
    var call := CallOf(RowOf(s, a).msg, s.attempts[a].stage.phase);
    if IsSlackCall(call) {
      A.SlackFrame(s, a, call, reply);
    } else {
      StoreGeneration(s, a, call, b);
    }
  }

  /** Between two reassignments of a thread its recorded version never decreases. */
  lemma {:induction false} VersionKeptBetweenReassignments(events: seq<Event>, k: nat, b: nat)
    requires Possible(events) && k <= |events| && Reassign(b) !in events[k..]
    ensures Possible(events[..k])
    ensures b in After(events[..k]).bindings && After(events[..k]).bindings[b].statusPost.Some? ==>
              b in After(events).bindings && After(events).bindings[b].statusPost.Some? &&
              After(events[..k]).bindings[b].statusVersion <= After(events).bindings[b].statusVersion
    decreases |events|
  {
    if k == |events| {
      assert events[..k] == events;
    } else {
      var n := |events| - 1;
      assert events[..n][..k] == events[..k] && events[k..] == events[..n][k..] + [events[n]];
      VersionKeptBetweenReassignments(events[..n], k, b);
      if b in After(events[..k]).bindings && After(events[..k]).bindings[b].statusPost.Some? {
        VersionStep(After(events[..n]), events[n], b);
        VersionDropsOnlyOnReassign(After(events[..n]), events[n], b);
      }
    }
  }

  // ---------------------------------------------------------------------------------------------
  // Who records

  /** The event is a lifecycle attempt's record of a version on its own binding. */
  ghost predicate Records(s: State, e: Event, b: nat) {
    && (e.Await? || e.StoreFailed?) && Present(s, e.attempt) && BindingOf(s, e.attempt) == b
    && RowOf(s, e.attempt).msg.kind.Lifecycle? && RowOf(s, e.attempt).msg.version.Some?
  }

  /**
   Only a delivery queued under the current assignment of the thread ever records a status post: it sets the
   version of its own message, which is newer than the one recorded, or there was none.
   */
  lemma RecordsUnderOwnAssignment(s: State, e: Event, b: nat)
    requires A.Typed(s) && Enabled(s, e) && b in s.bindings && e != Reassign(b)
    ensures b in Next(s, e).bindings
    ensures var x, y := s.bindings[b], Next(s, e).bindings[b];
      y.statusPost != x.statusPost || y.statusVersion != x.statusVersion ==>
        && Records(s, e, b) && RowOf(s, e.attempt).generation == x.generation
        && y.statusPost.Some? && y.statusVersion == RowOf(s, e.attempt).msg.version.value
        && (x.statusPost.None? || x.statusVersion < y.statusVersion)
  {
    hide AwaitStep, StoreFailedStep, Start, StageAfter, CallOf, Fits, LeaseStore.Renewed, LeaseStore.Released, Holds;
    if e.Await? {
      AwaitRecords(s, e.attempt, e.reply, b);
    } else if e.StoreFailed? {
      StoreFailedRecords(s, e.attempt, e.landed, b);
    }
  }

  lemma StoreRecords(s: State, a: nat, b: nat)
    requires Present(s, a) && s.attempts[a].stage.Applying? && Fits(RowOf(s, a).msg, s.attempts[a].stage.phase)
    requires b in s.bindings && !IsSlackCall(CallOf(RowOf(s, a).msg, s.attempts[a].stage.phase))
    ensures var t := ServeStore(s, a, CallOf(RowOf(s, a).msg, s.attempts[a].stage.phase)).0;
      && b in t.bindings
      && var x, y := s.bindings[b], t.bindings[b];
         y.statusPost != x.statusPost || y.statusVersion != x.statusVersion ==>
           && BindingOf(s, a) == b && RowOf(s, a).msg.kind.Lifecycle? && RowOf(s, a).msg.version.Some?
           && RowOf(s, a).generation == x.generation
           && y.statusPost.Some? && y.statusVersion == RowOf(s, a).msg.version.value
           && (x.statusPost.None? || x.statusVersion < y.statusVersion)
  {
  }

  lemma AwaitRecords(s: State, a: nat, reply: SlackReply, b: nat)
    requires Enabled(s, Await(a, reply)) && b in s.bindings
    ensures b in AwaitStep(s, a, reply).bindings
    ensures var x, y := s.bindings[b], AwaitStep(s, a, reply).bindings[b];
      y.statusPost != x.statusPost || y.statusVersion != x.statusVersion ==>
        && Records(s, Await(a, reply), b) && RowOf(s, a).generation == x.generation
        && y.statusPost.Some? && y.statusVersion == RowOf(s, a).msg.version.value
        && (x.statusPost.None? || x.statusVersion < y.statusVersion)
  {
    hide Resume, StageAfter, ServeStore, CallOf;
    var call := CallOf(RowOf(s, a).msg, s.attempts[a].stage.phase);
    if IsSlackCall(call) {
      A.SlackFrame(s, a, call, reply);
    } else {
      StoreRecords(s, a, b);
    }
  }

  lemma StoreFailedRecords(s: State, a: nat, landed: bool, b: nat)
    requires Enabled(s, StoreFailed(a, landed)) && b in s.bindings
    ensures b in StoreFailedStep(s, a, landed).bindings
    ensures var x, y := s.bindings[b], StoreFailedStep(s, a, landed).bindings[b];
      y.statusPost != x.statusPost || y.statusVersion != x.statusVersion ==>
        && Records(s, StoreFailed(a, landed), b) && RowOf(s, a).generation == x.generation
        && y.statusPost.Some? && y.statusVersion == RowOf(s, a).msg.version.value
        && (x.statusPost.None? || x.statusVersion < y.statusVersion)
  {
    hide ServeStore, CallOf;
    StoreRecords(s, a, b);
  }

  // ---------------------------------------------------------------------------------------------
  // Stale messages

  lemma NeverAppliesAgain(s: State, e: Event, a: nat)
    requires Enabled(s, e) && a in s.attempts && a < s.now
    requires !s.attempts[a].stage.Leased? && !s.attempts[a].stage.Applying?
    ensures a in Next(s, e).attempts
    ensures !Next(s, e).attempts[a].stage.Leased? && !Next(s, e).attempts[a].stage.Applying?
  {
    hide Next;
    if e.Await? {
      A.AwaitFrame(s, e.attempt, e.reply);
    } else {
      NothingElseApplies(s, e, a);
    }
  }

  lemma NothingElseApplies(s: State, e: Event, a: nat)
    requires Enabled(s, e) && !e.Await? && a in s.attempts && a < s.now
    requires !s.attempts[a].stage.Leased? && !s.attempts[a].stage.Applying?
    ensures a in Next(s, e).attempts
    ensures !Next(s, e).attempts[a].stage.Leased? && !Next(s, e).attempts[a].stage.Applying?
  {
    if e.StoreFailed? {
      A.StoreFrame(s, e.attempt, CallOf(RowOf(s, e.attempt).msg, s.attempts[e.attempt].stage.phase));
    }
    hide AwaitStep, Start, Resume, ServeStore;
  }

  /** `a` is about to read a recorded status post at least as new as its message. */
  ghost predicate ReadsNewer(s: State, a: nat) {
    && Present(s, a) && s.attempts[a].stage == Applying(ReadStatus)
    && RowOf(s, a).msg.version.Some? && s.bindings[BindingOf(s, a)].statusPost.Some?
    && s.bindings[BindingOf(s, a)].statusVersion >= RowOf(s, a).msg.version.value
  }

  lemma StaleStep(s: State, a: nat, reply: SlackReply)
    requires Enabled(s, Await(a, reply)) && ReadsNewer(s, a)
    ensures var s' := Next(s, Await(a, reply)); a in s'.attempts && s'.attempts[a].stage.Renewing?
  {
  }

  /** A lifecycle message not newer than the recorded post leaves the projection for good: no Slack call. */
  lemma {:induction false} StaleVersionIsSilent(events: seq<Event>, k: nat, a: nat, reply: SlackReply)
    requires Possible(events) && k < |events| && events[k] == Await(a, reply)
    requires Possible(events[..k]) && ReadsNewer(After(events[..k]), a)
    ensures a in After(events).attempts
    ensures !After(events).attempts[a].stage.Leased? && !After(events).attempts[a].stage.Applying?
    decreases |events|
  {
    var n := |events| - 1;
    if k == n {
      StaleStep(After(events[..n]), a, reply);
    } else {
      assert events[..n][..k] == events[..k];
      StaleVersionIsSilent(events[..n], k, a, reply);
      A.RunKeeps(events[..n]);
      NeverAppliesAgain(After(events[..n]), events[n], a);
    }
  }

  // ---------------------------------------------------------------------------------------------
  // When a second status post appears

  /** Slack accepted two status posts for one binding. */
  ghost predicate Doubled(s: State, b: nat) {
    exists i, j | 0 <= i < j < |s.creations| :: StatusOf(s.creations[i], b) && StatusOf(s.creations[j], b)
  }

  /** Fenced claims and stamped answers on a binding leave it with one status post at most. */
  lemma FencedAndStampedIsSafe(events: seq<Event>, b: nat)
    requires Possible(events) && FencedOn(After(events), b) && StampedOn(After(events), b)
    ensures !Doubled(After(events), b)
  {
    var s := After(events);
    if i, j :| 0 <= i < j < |s.creations| && StatusOf(s.creations[i], b) && StatusOf(s.creations[j], b) {
      P.SecondPostNeedsFault(events, b, i, j);
    }
  }

  // ---------------------------------------------------------------------------------------------
  // Two runs with a second status post

  const HERE := Place("slack", "C1", "root")
  const FIRST := Message(0, System, Lifecycle, Some(1), None)
  const SECOND := Message(1, System, Lifecycle, Some(2), None)

  lemma Then(events: seq<Event>, s: State, e: Event) returns (more: seq<Event>, s': State)
    requires Possible(events) && After(events) == s && Enabled(s, e)
    ensures more == events + [e] && s' == Next(s, e) && Possible(more) && After(more) == s'
  {
    more, s' := events + [e], Next(s, e);
    assert more[..|events|] == events;
  }

  /** Two lifecycle messages of one binding, committed and not yet delivered. */
  ghost const TWO_QUEUED: State :=
    INITIAL.(now := 3, bindings := map[0 := Binding(HERE, None, 0, 0, None)],
             rows := map[0 := Row(0, FIRST, 0, Queued), 1 := Row(0, SECOND, 0, Queued)])

  lemma Commit() returns (events: seq<Event>)
    ensures Possible(events) && After(events) == TWO_QUEUED
  {
    var s: State;
    events, s := Then([], INITIAL, Bind(0, HERE));
    events, s := Then(events, s, Enqueue(0, 0, FIRST));
    events, s := Then(events, s, Enqueue(1, 0, SECOND));
  }

  /** The effect of the lifecycle steps the two runs below are made of. */
  lemma Leasing(s: State, r: nat)
    requires r in s.rows && s.rows[r].binding == 0 && s.now !in s.attempts
    requires 0 in s.leases ==> s.leases[0].deadline <= s.clock
    ensures Enabled(s, Acquire(r))
    ensures Next(s, Acquire(r)) ==
      s.(now := s.now + 1, leases := s.leases[0 := Lease(s.now, s.clock + LEASE_TTL_MS)],
         attempts := s.attempts[s.now := Attempt(r, false, false, Leased)])
  {
  }

  ghost predicate At(s: State, a: nat, r: nat, claimed: bool, stage: Stage) {
    && a in s.attempts && s.attempts[a] == Attempt(r, claimed, false, stage)
    && r in s.rows && s.rows[r].binding == 0 && 0 in s.bindings && s.bindings[0].generation == s.rows[r].generation
    && s.rows[r].msg.kind.Lifecycle? && s.rows[r].msg.version.Some?
  }

  ghost function To(s: State, a: nat, r: nat, stage: Stage): State {
    s.(now := s.now + 1, attempts := s.attempts[a := Attempt(r, true, false, stage)])
  }

  lemma Claiming(s: State, a: nat, r: nat)
    requires At(s, a, r, false, Leased) && s.rows[r].state.Queued?
    ensures Enabled(s, Claim(a, true))
    ensures Next(s, Claim(a, true)) ==
      To(s, a, r, Applying(ReadStatus)).(
        rows := s.rows[r := s.rows[r].(state := Sending)],
        lateClaims := if Holds(s, a, 0) then s.lateClaims else s.lateClaims + {a})
  {
  }

  lemma ReadingNone(s: State, a: nat, r: nat)
    requires At(s, a, r, true, Applying(ReadStatus)) && s.bindings[0].statusPost.None?
    ensures Enabled(s, Await(a, Accept)) && Next(s, Await(a, Accept)) == To(s, a, r, Applying(CheckAmbiguous))
  {
  }

  lemma Checking(s: State, a: nat, r: nat)
    requires At(s, a, r, true, Applying(CheckAmbiguous)) && !AmbiguousCreation(s, r)
    ensures Enabled(s, Await(a, Accept)) && Next(s, Await(a, Accept)) == To(s, a, r, Applying(PostStatus))
  {
  }

  lemma Posting(s: State, a: nat, r: nat)
    requires At(s, a, r, true, Applying(PostStatus))
    ensures Enabled(s, Await(a, Accept)) && Enabled(s, Await(a, AcceptWithoutStamp))
    ensures Next(s, Await(a, Accept)) ==
      To(s, a, r, Applying(AdvanceCreated(s.now))).(
        creations := s.creations + [Creation(a, r, 0, true, s.now, false)])
    ensures Next(s, Await(a, AcceptWithoutStamp)) ==
      To(s, a, r, Finishing(Rejected)).(creations := s.creations + [Creation(a, r, 0, true, s.now, true)])
  {
  }

  lemma Advancing(s: State, a: nat, r: nat, post: nat)
    requires At(s, a, r, true, Applying(AdvanceCreated(post)))
    requires s.bindings[0].statusPost.None? || s.bindings[0].statusVersion < s.rows[r].msg.version.value
    ensures Enabled(s, Await(a, Accept))
    ensures Next(s, Await(a, Accept)) ==
      To(s, a, r, Renewing(Result(Posted, Some(post), false))).(
        bindings := s.bindings[0 := s.bindings[0].(statusPost := Some(post), statusVersion := s.rows[r].msg.version.value)])
  {
  }

  lemma Renewal(s: State, a: nat, r: nat, result: Result)
    requires At(s, a, r, true, Renewing(result)) && Holds(s, a, 0) && !result.skipped
    ensures Enabled(s, Renew(a, false))
    ensures Next(s, Renew(a, false)) ==
      To(s, a, r, Finishing(Accepted)).(
        leases := s.leases[0 := Lease(a, s.clock + LEASE_TTL_MS)], renewals := s.renewals[r := Span(a, s.now)])
  {
  }

  lemma Finished(s: State, a: nat, r: nat, outcome: Outcome)
    requires At(s, a, r, true, Finishing(outcome)) && s.rows[r].state.Sending?
    ensures Enabled(s, Finish(a))
    ensures Next(s, Finish(a)) == To(s, a, r, Releasing).(rows := s.rows[r := s.rows[r].(state := outcome)])
  {
  }

  lemma Released(s: State, a: nat, r: nat)
    requires At(s, a, r, true, Releasing) && Holds(s, a, 0)
    ensures Enabled(s, Release(a)) && Next(s, Release(a)) == To(s, a, r, Gone).(leases := s.leases - {0})
  {
  }

  /** A row whose binding has no status post and no other row in flight goes from queued to posting. */
  lemma ReachPost(events: seq<Event>, s: State, r: nat) returns (more: seq<Event>, s': State)
    requires Possible(events) && After(events) == s && s.now !in s.attempts
    requires r in s.rows && s.rows[r].binding == 0 && s.rows[r].state.Queued? && s.rows[r].generation == 0
    requires s.rows[r].msg.kind.Lifecycle? && s.rows[r].msg.version.Some?
    requires 0 in s.bindings && s.bindings[0].statusPost.None? && s.bindings[0].generation == 0
    requires forall q | q in s.rows && q != r :: !InFlight(s.rows[q].state)
    requires 0 in s.leases ==> s.leases[0].deadline <= s.clock
    ensures more == events + [Acquire(r), Claim(s.now, true), Await(s.now, Accept), Await(s.now, Accept)]
    ensures Possible(more) && After(more) == s'
    ensures s' == s.(now := s.now + 4, rows := s.rows[r := s.rows[r].(state := Sending)],
                     leases := s.leases[0 := Lease(s.now, s.clock + LEASE_TTL_MS)],
                     attempts := s.attempts[s.now := Attempt(r, true, false, Applying(PostStatus))])
  {
    hide Enabled, Next, Effect, Possible, After;
    var a := s.now;
    Leasing(s, r);
    more, s' := Then(events, s, Acquire(r));
    Claiming(s', a, r);
    more, s' := Then(more, s', Claim(a, true));
    ReadingNone(s', a, r);
    more, s' := Then(more, s', Await(a, Accept));
    Checking(s', a, r);
    more, s' := Then(more, s', Await(a, Accept));
  }

  /** A post is recorded at version 1, then the thread is reassigned. */
  lemma VersionDropRun() returns (events: seq<Event>)
    ensures Possible(events) && |events| > 0 && Possible(events[..|events| - 1])
    ensures var before, after := After(events[..|events| - 1]), After(events);
            && 0 in before.bindings && before.bindings[0].statusPost.Some?
            && 0 in after.bindings && after.bindings[0].statusPost == before.bindings[0].statusPost
            && after.bindings[0].statusVersion < before.bindings[0].statusVersion
  {
    hide Enabled, Next;
    events := Commit();
    var s: State := TWO_QUEUED;
    events, s := ReachPost(events, s, 0);
    Posting(s, 3, 0);
    events, s := Then(events, s, Await(3, Accept));
    Advancing(s, 3, 0, s.now - 1);
    events, s := Then(events, s, Await(3, Accept));
    var recorded := events;
    Lowering(s);
    events, s := Then(events, s, Reassign(0));
    assert events[..|events| - 1] == recorded;
  }

  lemma Lowering(s: State)
    requires 0 in s.bindings
    ensures Enabled(s, Reassign(0))
    ensures Next(s, Reassign(0)) ==
      s.(now := s.now + 1,
         bindings := s.bindings[0 := s.bindings[0].(statusVersion := -1, generation := s.bindings[0].generation + 1)])
  {
  }

  /** Slack accepts the first post but returns no timestamp: the row ends rejected, the check sees nothing. */
  lemma UnstampedRun() returns (events: seq<Event>)
    ensures Possible(events) && After(events).lateClaims == {} && Doubled(After(events), 0)
  {
    hide Enabled, Next;
    events := Commit();
    var s: State := TWO_QUEUED;
    events, s := ReachPost(events, s, 0);
    Posting(s, 3, 0);
    events, s := Then(events, s, Await(3, AcceptWithoutStamp));
    Finished(s, 3, 0, Rejected);
    events, s := Then(events, s, Finish(3));
    Released(s, 3, 0);
    events, s := Then(events, s, Release(3));
    events, s := ReachPost(events, s, 1);
    Posting(s, 10, 1);
    events, s := Then(events, s, Await(10, Accept));
    assert StatusOf(s.creations[0], 0) && StatusOf(s.creations[1], 0);
  }

  /** The second attempt claims after its lease ran out and reads "no post" before the first records one. */
  lemma LateClaimRun() returns (events: seq<Event>)
    ensures Possible(events) && StampedOn(After(events), 0) && Doubled(After(events), 0)
    ensures !FencedOn(After(events), 0)
  {
    var s: State;
    events, s := LateClaimPosts();
    assert StatusOf(s.creations[0], 0) && StatusOf(s.creations[1], 0);
  }

  /** Up to the second post, which its late claimer has not recorded yet. */
  lemma LateClaimPosts() returns (events: seq<Event>, s: State)
    ensures Possible(events) && After(events) == s
    ensures |s.creations| == 2 && StampedOn(s, 0)
    ensures forall i | 0 <= i < 2 :: StatusOf(s.creations[i], 0)
    ensures s.creations[1].attempt == 3 && 3 in s.lateClaims && s.creations[0].post < s.creations[1].post
    ensures At(s, 3, 1, true, Applying(AdvanceCreated(s.creations[1].post))) && s.rows[1].msg == SECOND
    ensures s.bindings[0].statusPost == Some(s.creations[0].post) && s.bindings[0].statusVersion == 1
  {
    hide Enabled, Next;
    events, s := LateClaim();
    events, s := FirstIsAccepted(events, s);
    Checking(s, 3, 1);
    events, s := Then(events, s, Await(3, Accept));
    Posting(s, 3, 1);
    events, s := Then(events, s, Await(3, Accept));
  }

  /** In that run the late claimer records its own post over the one that was recorded before. */
  lemma RecordedPostChangesRun() returns (events: seq<Event>)
    ensures Possible(events) && |events| > 0 && StampedOn(After(events), 0) && !FencedOn(After(events), 0)
    ensures Possible(events[..|events| - 1])
    ensures var before, after := After(events[..|events| - 1]), After(events);
            && 0 in before.bindings && before.bindings[0].statusPost.Some?
            && 0 in after.bindings && after.bindings[0].statusPost.Some?
            && after.bindings[0].statusPost != before.bindings[0].statusPost
  {
    hide Enabled, Next;
    var s: State;
    events, s := LateClaimPosts();
    ghost var posted := events;
    Advancing(s, 3, 1, s.creations[1].post);
    events, s := Then(events, s, Await(3, Accept));
    assert events[..|events| - 1] == posted;
    assert s.creations[1].attempt in s.lateClaims;
  }

  /** Over every run the recorded post of the binding stays once it is set. */
  ghost predicate PostStaysFixed(events: seq<Event>, b: nat)
    requires Possible(events)
  {
    forall k | 0 <= k <= |events| && Possible(events[..k]) && b in After(events[..k]).bindings
               && After(events[..k]).bindings[b].statusPost.Some? ::
      b in After(events).bindings && After(events).bindings[b].statusPost == After(events[..k]).bindings[b].statusPost
  }

  /** The fence is what keeps the recorded post: with it every run does, without it even a stamped one need not. */
  lemma RecordedPostCondition(fenced: bool)
    ensures fenced <==>
      forall events, b | Possible(events) && StampedOn(After(events), b) && (fenced ==> FencedOn(After(events), b)) ::
        PostStaysFixed(events, b)
  {
    if fenced {
      forall events, b | Possible(events) && FencedOn(After(events), b) ensures PostStaysFixed(events, b) {
        forall k | 0 <= k <= |events| && Possible(events[..k]) && b in After(events[..k]).bindings
                   && After(events[..k]).bindings[b].statusPost.Some?
          ensures b in After(events).bindings && After(events).bindings[b].statusPost == After(events[..k]).bindings[b].statusPost
        {
          RecordedPostIsFixed(events, k, b);
        }
      }
    } else {
      var events := RecordedPostChangesRun();
      var k := |events| - 1;
      assert 0 in After(events[..k]).bindings && After(events[..k]).bindings[0].statusPost.Some?;
      assert !PostStaysFixed(events, 0);
    }
  }

  lemma LateClaim() returns (events: seq<Event>, s: State)
    ensures Possible(events) && After(events) == s
    ensures s.rows == map[0 := Row(0, FIRST, 0, Sending), 1 := Row(0, SECOND, 0, Sending)]
    ensures s.bindings == map[0 := Binding(HERE, None, 0, 0, None)] && s.creations == []
    ensures Holds(s, 5, 0) && At(s, 5, 0, true, Applying(PostStatus)) && At(s, 3, 1, true, Applying(CheckAmbiguous))
    ensures 3 in s.lateClaims
  {
    hide Enabled, Next;
    events := Commit();
    Leasing(TWO_QUEUED, 1);
    events, s := Then(events, TWO_QUEUED, Acquire(1));
    Passing(s);
    events, s := Then(events, s, Pass(LEASE_TTL_MS));
    events, s := ReachPost(events, s, 0);
    Claiming(s, 3, 1);
    events, s := Then(events, s, Claim(3, true));
    ReadingNone(s, 3, 1);
    events, s := Then(events, s, Await(3, Accept));
  }

  lemma Passing(s: State)
    ensures Enabled(s, Pass(LEASE_TTL_MS))
    ensures Next(s, Pass(LEASE_TTL_MS)) == s.(now := s.now + 1, clock := s.clock + LEASE_TTL_MS)
  {
  }

  /** The first attempt posts, records its post, renews its lease and finishes. */
  lemma FirstIsAccepted(events: seq<Event>, s: State) returns (more: seq<Event>, s': State)
    requires Possible(events) && After(events) == s
    requires s.rows == map[0 := Row(0, FIRST, 0, Sending), 1 := Row(0, SECOND, 0, Sending)]
    requires s.bindings == map[0 := Binding(HERE, None, 0, 0, None)] && s.creations == []
    requires Holds(s, 5, 0) && At(s, 5, 0, true, Applying(PostStatus)) && At(s, 3, 1, true, Applying(CheckAmbiguous))
    ensures Possible(more) && After(more) == s'
    ensures s'.rows == map[0 := Row(0, FIRST, 0, Accepted), 1 := Row(0, SECOND, 0, Sending)]
    ensures At(s', 3, 1, true, Applying(CheckAmbiguous))
    ensures |s'.creations| == 1 && StatusOf(s'.creations[0], 0) && !s'.creations[0].misread
    ensures s'.lateClaims == s.lateClaims && s'.creations[0].post < s'.now
    ensures s'.bindings == map[0 := Binding(HERE, Some(s'.creations[0].post), 1, 0, None)]
  {
    hide Enabled, Next;
    Posting(s, 5, 0);
    more, s' := Then(events, s, Await(5, Accept));
    Advancing(s', 5, 0, s.now);
    more, s' := Then(more, s', Await(5, Accept));
    Renewal(s', 5, 0, Result(Posted, Some(s.now), false));
    more, s' := Then(more, s', Renew(5, false));
    Finished(s', 5, 0, Accepted);
    more, s' := Then(more, s', Finish(5));
  }

  /**
   What keeps a binding from a second status post: that the status posts of this binding come from
   fenced claims and are stamped. Either alone admits a run with two.
   */
  lemma SecondStatusPostCondition(fenced: bool, stamped: bool)
    ensures fenced && stamped <==>
      forall events, b | Possible(events)
          && (fenced ==> FencedOn(After(events), b)) && (stamped ==> StampedOn(After(events), b)) ::
        !Doubled(After(events), b)
  {
    if fenced && stamped {
      forall events, b | Possible(events) && FencedOn(After(events), b) && StampedOn(After(events), b)
        ensures !Doubled(After(events), b)
      {
        FencedAndStampedIsSafe(events, b);
      }
    } else if fenced {
      var events := UnstampedRun();
      assert FencedOn(After(events), 0) && Doubled(After(events), 0);
    } else {
      var events := LateClaimRun();
      assert StampedOn(After(events), 0) && Doubled(After(events), 0);
    }
  }
}
